/** Runs of the service object are runs of the serial machine, so what is proved of the machine holds of the object. */
module ServiceRuns {
  import opened Prelude
  import opened Tables
  import opened Transactions
  import opened SerialMachine
  import opened Constraints
  import opened AuditReplay
  import opened Store
  import opened Identity

  /** Handed the stored row, the link goes where the machine sends it. */
  lemma SentAsStored(t: Tables, now: Time, userId: Id, ttl: int)
    ensures SendVerification(t, now, userId, ttl)
            == if userId in t.users then SendTo(t, now, userId, t.users[userId], ttl) else Outcome(t, Done, None)
  {
    hide UserVerificationsSpent;
  }

  /** The rows as a map by id, which is how the machine answers. */
  lemma ListedAre(sessions: map<Id, Session>, userId: Id, now: Time, rows: seq<(Id, Session)>, listed: map<Id, Session>)
    requires forall k :: 0 <= k < |rows| ==>
               && rows[k].0 in sessions && rows[k].1 == sessions[rows[k].0]
               && rows[k].1.userId == userId && Live(rows[k].1, now)
    requires forall id :: id in sessions && sessions[id].userId == userId && Live(sessions[id], now) ==>
               exists k :: 0 <= k < |rows| && rows[k].0 == id
    requires forall id :: id in listed <==> exists k :: 0 <= k < |rows| && rows[k].0 == id
    requires forall k :: 0 <= k < |rows| ==> rows[k].0 in listed && listed[rows[k].0] == rows[k].1
    ensures listed == LiveSessionsOf(sessions, userId, now)
  {
    forall id | id in listed ensures id in LiveSessionsOf(sessions, userId, now) && listed[id] == sessions[id] {
      var k :| 0 <= k < |rows| && rows[k].0 == id;
    }
  }

  method ListSessions(s: Service, now: Time, userId: Id) returns (reply: Reply)
    ensures reply == Listing(LiveSessionsOf(s.repo.sessions, userId, now))
  {
    var rows := s.repo.ListUserSessions(now, userId);
    var listed := map k | 0 <= k < |rows| :: rows[k].0 := rows[k].1;
    ListedAre(s.repo.sessions, userId, now, rows, listed);
    reply := Listing(listed);
  }

  predicate OnRoles(c: Command) {
    c.CGrantRoleByKey? || c.CCreateRole? || c.CUpdateRole? || c.CDeleteRole? || c.CSetUserRoles?
  }

  predicate OnOffers(c: Command) {
    c.CInvite? || c.CRevokeInvitation? || c.CAcceptInvitation? || c.CCreateApiKey? || c.CRevokeApiKey?
  }

  method ExecuteOnRoles(s: Service, now: Time, c: Command) returns (reply: Reply)
    requires OnRoles(c)
    requires s.repo.Valid()
    modifies s.repo
    ensures s.repo.Shows(Step(old(s.repo.Snap()), now, c), reply, old(s.repo.log))
    ensures s.repo.Valid()
  {
    hide Consistent, Register, Login, Logout, RevokeSession, ChangePassword, SetUserActive, SetSuperuser,
         GrantRoleByKey, Invite, RevokeInvitation, AcceptInvitation, CreateRole, UpdateRole, DeleteRole, SetUserRoles,
         CreateApiKey, RevokeApiKey, RequestPasswordReset, ResetPassword, SendVerification, SendTo, VerifyEmail, Prune,
         AuthenticateSession, AuthenticateApiKey, LiveSessionsOf;
    match c
    case CGrantRoleByKey(email, key, ok) => reply := s.GrantRoleByKey(email, key, ok);
    case CCreateRole(actor, access, key, name, perms, ok) => reply := s.CreateRole(actor, access, key, name, perms, ok);
    case CUpdateRole(actor, access, id, name, perms, ok) => reply := s.UpdateRole(actor, access, id, name, perms, ok);
    case CDeleteRole(actor, access, id) => reply := s.DeleteRole(actor, access, id);
    case CSetUserRoles(actor, access, target, ids) => reply := s.SetUserRoles(actor, access, target, ids);
  }

  method ExecuteOnOffers(s: Service, now: Time, c: Command) returns (reply: Reply)
    requires OnOffers(c)
    requires s.repo.Valid()
    modifies s.repo
    ensures s.repo.Shows(Step(old(s.repo.Snap()), now, c), reply, old(s.repo.log))
    ensures s.repo.Valid()
  {
    hide Consistent, Register, Login, Logout, RevokeSession, ChangePassword, SetUserActive, SetSuperuser,
         GrantRoleByKey, Invite, RevokeInvitation, AcceptInvitation, CreateRole, UpdateRole, DeleteRole, SetUserRoles,
         CreateApiKey, RevokeApiKey, RequestPasswordReset, ResetPassword, SendVerification, SendTo, VerifyEmail, Prune,
         AuthenticateSession, AuthenticateApiKey, LiveSessionsOf;
    match c
    case CInvite(actor, access, email, roleId, ttl, ok) =>
      reply := s.Invite(now, actor, access, email, roleId, ttl, ok);
    case CRevokeInvitation(actor, id) => reply := s.RevokeInvitation(now, actor, id);
    case CAcceptInvitation(token, hash, ok) => reply := s.TakeUp(now, token, hash, ok);
    case CCreateApiKey(actor, access, name, perms, expiresAt, ok) =>
      reply := s.CreateApiKey(now, actor, access, name, perms, expiresAt, ok);
    case CRevokeApiKey(actor, id) => reply := s.RevokeApiKey(now, actor, id);
  }

  /** One command, whichever handler or shell command it comes from. */
  method Execute(s: Service, now: Time, c: Command) returns (reply: Reply)
    requires s.repo.Valid()
    modifies s.repo
    ensures s.repo.Shows(Step(old(s.repo.Snap()), now, c), reply, old(s.repo.log))
    ensures s.repo.Valid()
  {
    hide Consistent, Register, Login, Logout, RevokeSession, ChangePassword, SetUserActive, SetSuperuser,
         GrantRoleByKey, Invite, RevokeInvitation, AcceptInvitation, CreateRole, UpdateRole, DeleteRole, SetUserRoles,
         CreateApiKey, RevokeApiKey, RequestPasswordReset, ResetPassword, SendVerification, SendTo, VerifyEmail, Prune,
         AuthenticateSession, AuthenticateApiKey, LiveSessionsOf;
    if OnRoles(c) {
      reply := ExecuteOnRoles(s, now, c);
      return;
    }
    if OnOffers(c) {
      reply := ExecuteOnOffers(s, now, c);
      return;
    }
    match c
    case CRegister(email, hash, ok) => reply := s.CreateAccount(email, hash, ok);
    case CLogin(email, verdict, upgrade, ttl) => reply := s.SignIn(now, email, verdict, upgrade, ttl);
    case CLogout(token, userId) => reply := s.Logout(now, token, userId);
    case CRevokeSession(actor, id) => reply := s.RevokeSession(now, actor, id);
    case CChangePassword(userId, verdict, hash, ok) => reply := s.ReplacePassword(now, userId, verdict, hash, ok);
    case CSetUserActive(actor, superuser, target, active) =>
      reply := s.SetUserActive(now, actor, superuser, target, active);
    case CSetSuperuser(email, flag, ok) => reply := s.SetSuperuser(email, flag, ok);
    case CRequestPasswordReset(email, ttl) => reply := s.RequestPasswordReset(now, email, ttl);
    case CResetPassword(token, hash, ok) => reply := s.SpendLink(now, token, hash, ok);
    case CSendVerification(userId, ttl) =>
      reply := Done;
      SentAsStored(s.repo.Snap(), now, userId, ttl);
      if userId in s.repo.users {
        reply := s.SendVerification(now, userId, s.repo.users[userId], ttl);
      }
    case CVerifyEmail(token) => reply := s.VerifyEmail(now, token);
    case CAuthenticate(token) => reply := s.repo.AuthenticateSession(now, token);
    case CAuthenticateKey(token) => reply := s.repo.AuthenticateApiKey(now, token);
    case CListSessions(userId) =>
      reply := ListSessions(s, now, userId);
    case CPrune(retain) =>
      s.Cleanup(now, retain);
      reply := Done;
  }

  /** Any sequence of commands, one transaction at a time. */
  method Serve(s: Service, es: seq<Event>)
    requires s.repo.Valid()
    modifies s.repo
    ensures s.repo.Valid()
    ensures s.repo.Snap() == Run(old(s.repo.Snap()), es)
    ensures s.repo.log == Trail(old(s.repo.Snap()), old(s.repo.log), es)
  {
    hide Consistent, Step;
    for i := 0 to |es|
      invariant s.repo.Valid()
      invariant Run(s.repo.Snap(), es[i..]) == Run(old(s.repo.Snap()), es)
      invariant Trail(s.repo.Snap(), s.repo.log, es[i..]) == Trail(old(s.repo.Snap()), old(s.repo.log), es)
    {
      assert es[i..][0] == es[i] && es[i..][1..] == es[i + 1..];
      var _ := Execute(s, es[i].now, es[i].command);
    }
  }

  /** From a fresh installation, whatever is served, the log in the database explains the authority state in it. */
  method ServeFromSeed(es: seq<Event>) returns (s: Service)
    ensures Replay(s.repo.log) == ViewOf(s.repo.Snap()) && AllTruthful(s.repo.log)
  {
    var repo := new Repository();
    s := new Service(repo);
    Serve(s, es);
    LogExplainsAuthority(es);
  }
}
