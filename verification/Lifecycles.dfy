/** What a credential is good for from the moment it is handed out: whom it stands for, until when it is accepted, and
    what puts an end to it. */
module Lifecycles {
  import opened Prelude
  import opened Permissions
  import opened Tables
  import opened Transactions
  import opened SerialMachine
  import opened Constraints
  import opened Frames
  import opened RoleStructure
  import opened LastAdmin
  import opened Credentials

  // ---------------------------------------------------------------- sessions and keys

  /** The token a login hands out signs its account in until the lifetime is over, and not at that instant; a due
      upgrade is what the account stores from then on. */
  lemma SessionLifetime(t: Tables, now: Time, email: string, verdict: Verdict, upgrade: Option<string>, ttl: int,
                        at: Time)
    requires Consistent(t) && Login(t, now, email, verdict, upgrade, ttl).reply.Issued?
    ensures var o := Login(t, now, email, verdict, upgrade, ttl);
            exists u :: u in t.users && t.users[u].email == email
              && AuthenticateSession(o.t, at, o.reply.token)
                 == (if at < now + ttl then SignedIn(u, t.nextId) else Failed(Unauthenticated))
              && o.t.users == t.users[u := t.users[u].(passwordHash :=
                                if upgrade.Some? then upgrade else t.users[u].passwordHash)]
  {
    hide RolesOk, SeedsOk, GrantsOk, AssignmentsOk, InvitationsOk, OneOpenInvitation, KeysOk, ResetsOk,
         VerificationsOk;
    var o := Login(t, now, email, verdict, upgrade, ttl);
    var u := UserByEmail(t.users, email).value;
    assert t.users[u].(passwordHash := t.users[u].passwordHash) == t.users[u] && t.users[u := t.users[u]] == t.users;
    assert o.t.sessions[t.nextId].token == o.reply.token && o.t.users[u].isActive;
    assert forall i :: i in o.t.sessions && o.t.sessions[i].token == o.reply.token ==> i == t.nextId;
    assert AuthenticateSession(o.t, at, o.reply.token)
           == if at < now + ttl then SignedIn(u, t.nextId) else Failed(Unauthenticated);
  }

  /** A minted key stands for its owner, while that account is active, with exactly the scope asked for, until it
      expires. */
  lemma KeyLifetime(t: Tables, now: Time, actor: Id, access: Access, name: string, perms: seq<Permission>,
                    expiresAt: Option<Time>, at: Time)
    requires Consistent(t) && CreateApiKey(t, now, actor, access, name, perms, expiresAt, true).reply.NewRow?
    ensures var o := CreateApiKey(t, now, actor, access, name, perms, expiresAt, true);
            && o.reply.id in o.t.apiKeys && o.t.apiKeys[o.reply.id].name == name && actor in t.users
            && AuthenticateApiKey(o.t, at, o.t.apiKeys[o.reply.id].token)
               == if t.users[actor].isActive && (expiresAt.None? || at < expiresAt.value)
                  then KeyAccepted(o.reply.id, actor, set p | p in perms) else Failed(Unauthenticated)
  {
    hide UsersOk, RolesOk, SeedsOk, AssignmentsOk, InvitationsOk, OneOpenInvitation, SessionsOk, ResetsOk,
         VerificationsOk, AllCatalogued;
    var o := CreateApiKey(t, now, actor, access, name, perms, expiresAt, true);
    assert forall g :: g in t.keyPermissions ==> (g.0, g.1) == g && g.0 in t.apiKeys;
    assert PermissionsOf(o.t.keyPermissions, o.reply.id) == set p | p in perms;
  }

  // ---------------------------------------------------------------- links

  /** An invitation can be accepted until it expires, by whoever holds its token. */
  lemma InvitationLifetime(t: Tables, now: Time, actor: Id, access: Access, email: string, roleId: Id, ttl: int,
                           at: Time, hash: string)
    requires Consistent(t) && Invite(t, now, actor, access, email, roleId, ttl, true).reply.NewRow?
    ensures var o := Invite(t, now, actor, access, email, roleId, ttl, true);
            && o.reply.id in o.t.invitations
            && o.t.invitations[o.reply.id].email == email && o.t.invitations[o.reply.id].invitedBy == actor
            && (AcceptInvitation(o.t, at, o.t.invitations[o.reply.id].token, hash, true).reply.NewRow? <==>
                at < now + ttl)
  {
    hide Consistent, AcceptInvitation, PermissionsOf;
    var o := Invite(t, now, actor, access, email, roleId, ttl, true);
    StepConsistent(t, now, CInvite(actor, access, email, roleId, ttl, true));
    AcceptanceAnswers(o.t, at, o.t.invitations[o.reply.id].token, hash, true);
    InvitationTokensDiffer(o.t);
  }

  /** Somebody the reset request is for: an active account with that address and a password. */
  ghost predicate Resettable(t: Tables, email: string) {
    exists u :: u in t.users && t.users[u].email == email && t.users[u].isActive && t.users[u].passwordHash.Some?
  }

  /** A request for a reset issues a link for such an account, good until it expires, and otherwise issues none. */
  lemma ResetLinkLifetime(t: Tables, now: Time, email: string, ttl: int, at: Time, hash: string)
    requires Consistent(t)
    ensures var o := RequestPasswordReset(t, now, email, ttl);
            if Resettable(t, email) then
              && t.nextId in o.t.resets && o.t.resets[t.nextId].userId in t.users
              && t.users[o.t.resets[t.nextId].userId].email == email
              && (ResetPassword(o.t, at, o.t.resets[t.nextId].token, hash, true).reply == Done <==> at < now + ttl)
            else o.t == t
  {
    hide RolesOk, SeedsOk, GrantsOk, AssignmentsOk, InvitationsOk, OneOpenInvitation, KeysOk, SessionsOk,
         VerificationsOk, ResetPassword, UserResetsSpent, Consistent, ResetsOk;
    Unfolded(t);
    var o := RequestPasswordReset(t, now, email, ttl);
    if Resettable(t, email) {
      StepConsistent(t, now, CRequestPasswordReset(email, ttl));
      ResetAnswers(o.t, at, o.t.resets[t.nextId].token, hash, true);
      ResetTokensDiffer(o.t);
    }
  }

  /** A verification link verifies the address it was sent to, until it expires. */
  lemma VerificationLifetime(t: Tables, now: Time, userId: Id, ttl: int, at: Time)
    requires Consistent(t) && userId in t.users
    ensures var sent := SendVerification(t, now, userId, ttl);
            if t.users[userId].verifiedAt.Some? then sent.t == t
            else
              && t.nextId in sent.t.verifications
              && var o := VerifyEmail(sent.t, at, sent.t.verifications[t.nextId].token);
                 && (o.reply == Done <==> at < now + ttl)
                 && o.t.users == if at < now + ttl
                                 then t.users[userId := t.users[userId].(verifiedAt := Some(at))] else t.users
  {
    hide UsersOk, RolesOk, SeedsOk, GrantsOk, AssignmentsOk, InvitationsOk, OneOpenInvitation, KeysOk, SessionsOk,
         ResetsOk;
  }

  /** The row was minted, and whatever invitation still carries its token is closed. */
  ghost predicate OfferClosed(t: Tables, token: Digest) {
    token < t.nextId && forall i :: i in t.invitations && t.invitations[i].token == token ==>
      t.invitations[i].acceptedAt.Some? || t.invitations[i].revokedAt.Some?
  }

  lemma StepKeepsClosed(t: Tables, now: Time, c: Command, token: Digest)
    requires OfferClosed(t, token)
    ensures OfferClosed(Step(t, now, c).t, token)
  {
    IdsGrow(t, now, c);
    if WritesInvitations(c) {
      hide UserByEmail, PermissionsOf, Without;
    } else {
      hide Step;
      InvitationsFrame(t, now, c);
    }
  }

  lemma {:induction false} RunKeepsClosed(t: Tables, es: seq<Event>, token: Digest)
    requires OfferClosed(t, token)
    ensures OfferClosed(Run(t, es), token)
    decreases |es|
  {
    hide OfferClosed, Step;
    if es != [] {
      StepKeepsClosed(t, es[0].now, es[0].command, token);
      RunKeepsClosed(Step(t, es[0].now, es[0].command).t, es[1..], token);
    }
  }

  lemma ClosedIsRefused(t: Tables, at: Time, token: Digest, hash: string)
    requires OfferClosed(t, token)
    ensures AcceptInvitation(t, at, token, hash, true).reply == Failed(InvitationInvalid)
  {
    hide RedeemInvitation;
  }

  /** A withdrawn invitation is refused in every later state, and so is one that was replaced. */
  lemma WithdrawnInvitationsStayClosed(t: Tables, now: Time, c: Command, i: Id, later: seq<Event>, at: Time,
                                       hash: string)
    requires Consistent(t) && i in t.invitations
    requires (c.CRevokeInvitation? && c.invitationId == i && Step(t, now, c).reply == Done)
             || (c.CInvite? && c.email == t.invitations[i].email && Step(t, now, c).reply.NewRow?)
    ensures AcceptInvitation(Run(Step(t, now, c).t, later), at, t.invitations[i].token, hash, true).reply
            == Failed(InvitationInvalid)
  {
    hide Consistent, Step, OfferClosed, AcceptInvitation;
    ClosingStep(t, now, c, i);
    RunKeepsClosed(Step(t, now, c).t, later, t.invitations[i].token);
    ClosedIsRefused(Run(Step(t, now, c).t, later), at, t.invitations[i].token, hash);
  }

  lemma ClosingStep(t: Tables, now: Time, c: Command, i: Id)
    requires Consistent(t) && i in t.invitations
    requires (c.CRevokeInvitation? && c.invitationId == i && Step(t, now, c).reply == Done)
             || (c.CInvite? && c.email == t.invitations[i].email && Step(t, now, c).reply.NewRow?)
    ensures OfferClosed(Step(t, now, c).t, t.invitations[i].token)
  {
    hide UsersOk, RolesOk, SeedsOk, GrantsOk, AssignmentsOk, KeysOk, SessionsOk, ResetsOk, VerificationsOk,
         OneOpenInvitation, UserByEmail, PermissionsOf;
    if c.CInvite? {
      hide OpenInvitationsRevoked, OfferClosed, Consistent;
      ReplacedIsClosed(t, now, c.actor, c.email, c.roleId, c.ttl, i);
    }
  }

  lemma ReplacedIsClosed(t: Tables, now: Time, actor: Id, email: string, roleId: Id, ttl: int, i: Id)
    requires Consistent(t) && i in t.invitations && t.invitations[i].email == email
    requires roleId in t.roles && IssueInvitation(t, now, actor, email, roleId, t.roles[roleId].key, ttl).reply.NewRow?
    ensures OfferClosed(IssueInvitation(t, now, actor, email, roleId, t.roles[roleId].key, ttl).t,
                        t.invitations[i].token)
  {
    hide UsersOk, RolesOk, SeedsOk, GrantsOk, AssignmentsOk, KeysOk, SessionsOk, ResetsOk, VerificationsOk,
         OneOpenInvitation;
  }

  // ---------------------------------------------------------------- the switches on an account

  ghost predicate ActiveAdmin(t: Tables, u: Id) {
    (u, ADMIN_ID) in t.userRoles && u in t.users && t.users[u].isActive
  }

  /** The switch is refused exactly: to oneself on the way off; to anybody but a superuser for an administrator, an
      inactive one included, while no two active ones are left; and for an account that is not there. */
  lemma SwitchAnswers(t: Tables, now: Time, actor: Id, superuser: bool, target: Id, active: bool)
    requires Consistent(t)
    ensures var o := SetUserActive(t, now, actor, superuser, target, active);
            var scarce := (target, ADMIN_ID) in t.userRoles
                          && forall u, v :: ActiveAdmin(t, u) && ActiveAdmin(t, v) ==> u == v;
            && (!active && actor == target <==> o.reply == Failed(Validation))
            && (!active && actor != target && !superuser && scarce <==> o.reply == Failed(LastAdmin))
            && (o.reply == Failed(NotFound) ==> target !in t.users)
            && (o.reply == Done ==> o.t.users == t.users[target := t.users[target].(isActive := active)])
            && (o.reply != Done ==> o.t == t && o.entry == None)
  {
    hide Consistent, HoldsRole, ActiveHolders, UserSessionsRevoked, UnrevokedCount, ActiveAdmin;
    AdminIsSeeded(t, target);
    NoTwoActive(t);
  }

  lemma NoTwoActive(t: Tables)
    requires Consistent(t)
    ensures |ActiveHolders(t, ADMIN_KEY)| <= 1 <==>
            forall u, v :: ActiveAdmin(t, u) && ActiveAdmin(t, v) ==> u == v
  {
    hide Consistent, ActiveHolders;
    ActiveHoldersAre(t);
    var active := ActiveHolders(t, ADMIN_KEY);
    if u, v :| ActiveAdmin(t, u) && ActiveAdmin(t, v) && u != v {
      TwoMembers(active, u, v);
    } else if |active| > 1 {
      var u :| u in active;
      var v := AnotherRemains(active, u);
      assert ActiveAdmin(t, u) && ActiveAdmin(t, v);
    }
  }

  /** Switching an account off shuts it out at once: no session, no key and no password gets anybody in as it. */
  lemma SwitchedOffIsShutOut(t: Tables, now: Time, actor: Id, superuser: bool, target: Id, token: Digest, at: Time,
                             verdict: Verdict, upgrade: Option<string>, ttl: int)
    requires Consistent(t) && SetUserActive(t, now, actor, superuser, target, false).reply == Done
    ensures var after := SetUserActive(t, now, actor, superuser, target, false).t;
            && target in t.users
            && (AuthenticateSession(after, at, token).SignedIn? ==>
                  AuthenticateSession(after, at, token).userId != target)
            && (AuthenticateApiKey(after, at, token).KeyAccepted? ==>
                  AuthenticateApiKey(after, at, token).userId != target)
            && Login(after, at, t.users[target].email, verdict, upgrade, ttl).reply == Failed(InvalidCredentials)
  {
    hide RolesOk, SeedsOk, GrantsOk, AssignmentsOk, InvitationsOk, OneOpenInvitation, KeysOk, SessionsOk, ResetsOk,
         VerificationsOk, HoldsRole, ActiveHolders, UnrevokedCount;
  }

  /** Switching it on again lets exactly its unrevoked, unexpired keys back in, and no session that has ended. */
  lemma SwitchedOnWorksAgain(t: Tables, now: Time, actor: Id, superuser: bool, target: Id, k: Id, at: Time)
    requires Consistent(t) && SetUserActive(t, now, actor, superuser, target, true).reply == Done
    requires k in t.apiKeys && t.apiKeys[k].userId == target
    ensures var after := SetUserActive(t, now, actor, superuser, target, true).t;
            && after.sessions == t.sessions && target in after.users && after.users[target].isActive
            && (AuthenticateApiKey(after, at, t.apiKeys[k].token).KeyAccepted? <==>
                  t.apiKeys[k].revokedAt.None? && (t.apiKeys[k].expiresAt.None? || t.apiKeys[k].expiresAt.value > at))
  {
    hide UsersOk, RolesOk, SeedsOk, GrantsOk, AssignmentsOk, InvitationsOk, OneOpenInvitation, SessionsOk, ResetsOk,
         VerificationsOk, HoldsRole, ActiveHolders, UnrevokedCount;
  }

  /** The shell's flag makes the account with that address, and no other, a superuser with the whole catalog, or an
      ordinary account with what its roles grant. */
  lemma SuperuserSwitched(t: Tables, email: string, flag: bool, u: Id)
    requires Consistent(t) && u in t.users
    ensures var after := SetSuperuser(t, email, flag, true).t;
            && u in after.users
            && after.users[u].isSuperuser == (if t.users[u].email == email then flag else t.users[u].isSuperuser)
            && Authorize(after, u, after.users[u].isSuperuser).permissions
               == if after.users[u].isSuperuser then CATALOG else EffectivePermissions(t, u)
  {
    hide RolesOk, SeedsOk, GrantsOk, AssignmentsOk, InvitationsOk, OneOpenInvitation, KeysOk, SessionsOk, ResetsOk,
         VerificationsOk, UnionPermissions, RolesHeld, EffectivePermissions;
    var after := SetSuperuser(t, email, flag, true).t;
    AuthorityIs(after, u);
    forall p ensures p in EffectivePermissions(after, u) <==> p in EffectivePermissions(t, u) {
      EffectiveIff(t, u, p);
      EffectiveIff(after, u, p);
    }
  }

  lemma AuthorityIs(t: Tables, u: Id)
    ensures Authorize(t, u, true).permissions == CATALOG
    ensures Authorize(t, u, false).permissions == EffectivePermissions(t, u)
  {}

  /** A grant from the shell adds exactly what the role grants to what the account could do. */
  lemma GrantedFromTheShell(t: Tables, email: string, key: string, u: Id, r: Id)
    requires Consistent(t) && u in t.users && t.users[u].email == email && r in t.roles && t.roles[r].key == key
    ensures var o := GrantRoleByKey(t, email, key, true);
            o.reply == Done && o.t == t.(userRoles := o.t.userRoles)
            && EffectivePermissions(o.t, u) == EffectivePermissions(t, u) + PermissionsOf(t.rolePermissions, r)
  {
    hide SeedsOk, GrantsOk, AssignmentsOk, InvitationsOk, OneOpenInvitation, KeysOk, SessionsOk, ResetsOk,
         VerificationsOk, EffectivePermissions;
    var o := GrantRoleByKey(t, email, key, true);
    forall p ensures p in EffectivePermissions(o.t, u) <==>
                     p in EffectivePermissions(t, u) || (r, p) in t.rolePermissions {
      EffectiveIff(t, u, p);
      EffectiveIff(o.t, u, p);
      assert (u, r) in o.t.userRoles;
    }
  }
}
