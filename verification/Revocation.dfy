/** Revoked credentials stay dead. */
module Revocation {
  import opened Prelude
  import Permissions
  import opened Tables
  import opened Transactions
  import opened SerialMachine
  import opened Constraints
  import opened Frames
  import opened Interleaving
  import opened ExactlyOnce

  // ---------------------------------------------------------------- sessions

  /** The token was minted, and whatever rows still carry it are revoked. */
  ghost predicate SessionEnded(t: Tables, token: Digest) {
    token < t.nextId && forall i :: i in t.sessions && t.sessions[i].token == token ==> t.sessions[i].revokedAt.Some?
  }

  lemma StepKeepsEnded(t: Tables, now: Time, c: Command, token: Digest)
    requires SessionEnded(t, token)
    ensures SessionEnded(Step(t, now, c).t, token)
  {
    hide UserByEmail, HoldsRole, ActiveHolders, LoginRefusal, UserResetsSpent, UnrevokedCount, SpendableReset, Register,
         SetSuperuser, GrantRoleByKey, Invite, RevokeInvitation, AcceptInvitation, CreateRole, UpdateRole, DeleteRole,
         SetUserRoles, CreateApiKey, RequestPasswordReset, SendVerification, VerifyEmail;
    IdsGrow(t, now, c);
    if !WritesSessions(c) {
      SessionsFrame(t, now, c);
    }
  }

  lemma {:induction false} RunKeepsEnded(t: Tables, es: seq<Event>, token: Digest)
    requires SessionEnded(t, token)
    ensures SessionEnded(Run(t, es), token)
    decreases |es|
  {
    hide SessionEnded, Step;
    if es != [] {
      StepKeepsEnded(t, es[0].now, es[0].command, token);
      RunKeepsEnded(Step(t, es[0].now, es[0].command).t, es[1..], token);
    }
  }

  lemma EndedNeverSignsIn(t: Tables, now: Time, token: Digest)
    requires SessionEnded(t, token)
    ensures AuthenticateSession(t, now, token) == Failed(Unauthenticated)
  {}

  /** The session a command is meant to end: by its token, by its id, or with all others of its account. */
  ghost predicate EndsSession(t: Tables, now: Time, c: Command, i: Id)
    requires i in t.sessions
  {
    match c
    case CLogout(token, _) => t.sessions[i].token == token
    case CRevokeSession(_, id) => i == id
    case CChangePassword(u, _, _, _) => t.sessions[i].userId == u
    case CSetUserActive(_, _, target, active) => t.sessions[i].userId == target && !active
    case CResetPassword(token, _, _) =>
      exists r :: r in t.resets && t.resets[r].token == token && t.resets[r].userId == t.sessions[i].userId
    case _ => false
  }

  lemma TokensDiffer(t: Tables)
    requires Consistent(t)
    ensures forall i, j :: i in t.sessions && j in t.sessions && t.sessions[i].token == t.sessions[j].token ==> i == j
    ensures forall i :: i in t.sessions ==> t.sessions[i].token < t.nextId
  {
    hide UsersOk, RolesOk, SeedsOk, GrantsOk, AssignmentsOk, InvitationsOk, OneOpenInvitation, KeysOk, ResetsOk,
         VerificationsOk;
  }

  lemma ResetTokensDiffer(t: Tables)
    requires Consistent(t)
    ensures forall i, j :: i in t.resets && j in t.resets && t.resets[i].token == t.resets[j].token ==> i == j
  {
    hide UsersOk, RolesOk, SeedsOk, GrantsOk, AssignmentsOk, InvitationsOk, OneOpenInvitation, KeysOk, SessionsOk,
         VerificationsOk;
  }

  /** Revoking all sessions of an account ends each of them. */
  lemma AllEnded(t: Tables, now: Time, i: Id, after: Tables)
    requires Consistent(t) && i in t.sessions && t.nextId <= after.nextId
    requires after.sessions == UserSessionsRevoked(t.sessions, t.sessions[i].userId, now)
    ensures SessionEnded(after, t.sessions[i].token)
  {
    hide Consistent;
    TokensDiffer(t);
  }

  lemma EndingStep(t: Tables, now: Time, c: Command, i: Id)
    requires Consistent(t) && i in t.sessions && EndsSession(t, now, c, i) && Step(t, now, c).reply == Done
    ensures SessionEnded(Step(t, now, c).t, t.sessions[i].token)
  {
    hide Consistent;
    TokensDiffer(t);
    if !c.CLogout? && !c.CRevokeSession? {
      hide HoldsRole, ActiveHolders, UnrevokedCount, UserResetsSpent, UserSessionsRevoked, SessionEnded;
      ResetTokensDiffer(t);
      AllEnded(t, now, i, Step(t, now, c).t);
    } else {
      hide ChangePassword, SetUserActive, ResetPassword;
    }
  }

  /** After a committed logout, revocation, password change, password reset or deactivation, no session it was to end
      authenticates in any later state, whatever happens in between, reactivation included. */
  lemma RevocationIsPermanent(t: Tables, now: Time, c: Command, i: Id, later: seq<Event>, at: Time)
    requires Consistent(t) && i in t.sessions && EndsSession(t, now, c, i) && Step(t, now, c).reply == Done
    ensures AuthenticateSession(Run(Step(t, now, c).t, later), at, t.sessions[i].token) == Failed(Unauthenticated)
  {
    hide Consistent, Step, SessionEnded, EndsSession;
    EndingStep(t, now, c, i);
    RunKeepsEnded(Step(t, now, c).t, later, t.sessions[i].token);
    EndedNeverSignsIn(Run(Step(t, now, c).t, later), at, t.sessions[i].token);
  }

  /** As it was, or stamped by one of those five; a revocation by id only by the account the session belongs to. */
  ghost predicate KeptOrEnded(t: Tables, now: Time, c: Command, o: Outcome, i: Id)
    requires i in t.sessions
  {
    && i in o.t.sessions
    && (o.t.sessions[i] == t.sessions[i]
        || (&& o.t.sessions[i] == t.sessions[i].(revokedAt := Some(now))
            && EndsSession(t, now, c, i) && o.reply == Done
            && (c.CRevokeSession? ==> c.actor == t.sessions[i].userId)))
  }

  lemma SignInsKeepSessions(t: Tables, now: Time, c: Command, i: Id)
    requires Consistent(t) && i in t.sessions && t.sessions[i].revokedAt.None?
    requires c.CLogin? || c.CLogout? || c.CRevokeSession?
    ensures KeptOrEnded(t, now, c, Step(t, now, c), i)
  {
    hide UsersOk, RolesOk, SeedsOk, GrantsOk, AssignmentsOk, InvitationsOk, OneOpenInvitation, KeysOk, ResetsOk,
         VerificationsOk, LoginRefusal, UserByEmail;
  }

  lemma AccountWritesKeepSessions(t: Tables, now: Time, c: Command, i: Id)
    requires i in t.sessions && t.sessions[i].revokedAt.None?
    requires c.CChangePassword? || c.CSetUserActive? || c.CResetPassword?
    ensures KeptOrEnded(t, now, c, Step(t, now, c), i)
  {
    hide HoldsRole, ActiveHolders, UnrevokedCount, UserResetsSpent;
  }

  /** And nothing else ends one, over any step other than a sweep. */
  lemma OnlyTheseEndSessions(t: Tables, now: Time, c: Command, i: Id)
    requires Consistent(t) && !c.CPrune? && i in t.sessions && t.sessions[i].revokedAt.None?
    ensures KeptOrEnded(t, now, c, Step(t, now, c), i)
  {
    hide Consistent, Step;
    if !WritesSessions(c) {
      SessionsFrame(t, now, c);
    } else {
      hide KeptOrEnded;
      if c.CLogin? || c.CLogout? || c.CRevokeSession? {
        SignInsKeepSessions(t, now, c, i);
      } else {
        AccountWritesKeepSessions(t, now, c, i);
      }
    }
  }

  // ---------------------------------------------------------------- API keys

  /** The key was minted, and whatever rows still carry its token are revoked. */
  ghost predicate KeyEnded(t: Tables, token: Digest) {
    token < t.nextId && forall k :: k in t.apiKeys && t.apiKeys[k].token == token ==> t.apiKeys[k].revokedAt.Some?
  }

  lemma KeyStepKeepsEnded(t: Tables, now: Time, c: Command, token: Digest)
    requires KeyEnded(t, token)
    ensures KeyEnded(Step(t, now, c).t, token)
  {
    IdsGrow(t, now, c);
    if WritesKeys(c) {
      hide Paired, Permissions.AllCatalogued, Permissions.PermissionSet;
    } else {
      hide Step;
      KeysFrame(t, now, c);
    }
  }

  lemma {:induction false} RunKeepsKeyEnded(t: Tables, es: seq<Event>, token: Digest)
    requires KeyEnded(t, token)
    ensures KeyEnded(Run(t, es), token)
    decreases |es|
  {
    hide KeyEnded, Step;
    if es != [] {
      KeyStepKeepsEnded(t, es[0].now, es[0].command, token);
      RunKeepsKeyEnded(Step(t, es[0].now, es[0].command).t, es[1..], token);
    }
  }

  lemma EndedKeyIsRefused(t: Tables, at: Time, token: Digest)
    requires KeyEnded(t, token)
    ensures AuthenticateApiKey(t, at, token) == Failed(Unauthenticated)
  {}

  lemma RevokedKeyEnds(t: Tables, now: Time, actor: Id, id: Id)
    requires Consistent(t) && RevokeApiKey(t, now, actor, id).reply == Done
    ensures id in t.apiKeys && KeyEnded(RevokeApiKey(t, now, actor, id).t, t.apiKeys[id].token)
  {
    hide UsersOk, RolesOk, SeedsOk, GrantsOk, AssignmentsOk, InvitationsOk, OneOpenInvitation, SessionsOk, ResetsOk,
         VerificationsOk;
  }

  /** Once revoked, a key is refused in every later state, whatever happens to it, to its owner or to other keys. */
  lemma RevokedKeysStayDead(t: Tables, now: Time, actor: Id, id: Id, later: seq<Event>, at: Time)
    requires Consistent(t) && RevokeApiKey(t, now, actor, id).reply == Done
    ensures id in t.apiKeys
    ensures AuthenticateApiKey(Run(RevokeApiKey(t, now, actor, id).t, later), at, t.apiKeys[id].token)
            == Failed(Unauthenticated)
  {
    hide Consistent, RevokeApiKey, KeyEnded;
    RevokedKeyEnds(t, now, actor, id);
    RunKeepsKeyEnded(RevokeApiKey(t, now, actor, id).t, later, t.apiKeys[id].token);
    EndedKeyIsRefused(Run(RevokeApiKey(t, now, actor, id).t, later), at, t.apiKeys[id].token);
  }

  /** And only a revocation of that very key changes its row. */
  lemma OnlyRevocationEndsKeys(t: Tables, now: Time, c: Command, k: Id)
    requires Consistent(t) && k in t.apiKeys
    ensures var after := Step(t, now, c).t.apiKeys;
            && k in after
            && (after[k] == t.apiKeys[k]
                || (&& c.CRevokeApiKey? && c.keyId == k && t.apiKeys[k].revokedAt.None?
                    && after[k] == t.apiKeys[k].(revokedAt := Some(now))))
  {
    hide UsersOk, RolesOk, SeedsOk, GrantsOk, AssignmentsOk, InvitationsOk, OneOpenInvitation, SessionsOk, ResetsOk,
         VerificationsOk, Permissions.AllCatalogued;
    if !WritesKeys(c) {
      hide Step;
      KeysFrame(t, now, c);
    }
  }

  // ---------------------------------------------------------------- under any interleaving

  /** No commit that is not itself a command of the serial machine touches a key, or brings a session back. */
  lemma CommitKeepsEnded(s: System, now: Time, a: Action, session: Digest, key: Digest)
    requires Commits(s, now, a)
    ensures SessionEnded(s.t, session) ==> SessionEnded(Commit(s, now, a).value.t, session)
    ensures KeyEnded(s.t, key) ==> KeyEnded(Commit(s, now, a).value.t, key)
  {
    hide SessionEnded, KeyEnded, Step, FinishRole, FinishSpending, RespectsClaims, Unspent, AssignRoles;
    if CommandOf(s, now, a).Some? {
      CommitIsStep(s, now, a);
      if SessionEnded(s.t, session) {
        StepKeepsEnded(s.t, now, CommandOf(s, now, a).value, session);
      }
      if KeyEnded(s.t, key) {
        KeyStepKeepsEnded(s.t, now, CommandOf(s, now, a).value, key);
      }
    } else {
      match a
      case FinishingRole(r) => RoleWritesKeepEnded(s.t, now, s.requests[r], session, key);
      case FinishingAssignment(r) =>
        var q := s.requests[r];
        AssignmentsKeepEnded(s.t, q.user, q.target, q.ids, q.before, q.keys, session, key);
      case Spending(r, hash) => SpendingKeepsEnded(s.t, s.requests[r], hash, session, key);
      case _ =>
    }
  }

  lemma SameRowsSameEnd(t: Tables, u: Tables, session: Digest, key: Digest)
    requires t.nextId <= u.nextId && u.sessions == t.sessions && u.apiKeys == t.apiKeys
    ensures SessionEnded(t, session) ==> SessionEnded(u, session)
    ensures KeyEnded(t, key) ==> KeyEnded(u, key)
  {}

  lemma RoleWritesKeepEnded(t: Tables, now: Time, q: Request, session: Digest, key: Digest)
    requires q.RoleRead?
    ensures SessionEnded(t, session) ==> SessionEnded(FinishRole(t, now, q).t, session)
    ensures KeyEnded(t, key) ==> KeyEnded(FinishRole(t, now, q).t, key)
  {
    hide SessionEnded, KeyEnded, Without, Paired, OpenInvitationsRevoked, InvitationsElsewhere;
    SameRowsSameEnd(t, FinishRole(t, now, q).t, session, key);
  }

  lemma AssignmentsKeepEnded(t: Tables, actor: Id, target: Id, ids: set<Id>, before: set<string>, after: set<string>,
                             session: Digest, key: Digest)
    ensures SessionEnded(t, session) ==> SessionEnded(AssignRoles(t, actor, target, ids, before, after).t, session)
    ensures KeyEnded(t, key) ==> KeyEnded(AssignRoles(t, actor, target, ids, before, after).t, key)
  {
    hide SessionEnded, KeyEnded, Without, Paired;
    SameRowsSameEnd(t, AssignRoles(t, actor, target, ids, before, after).t, session, key);
  }

  lemma SpendingKeepsEnded(t: Tables, q: Request, hash: string, session: Digest, key: Digest)
    requires q.Claimed? && Unspent(t, q.kind, q.row)
    ensures SessionEnded(t, session) ==> SessionEnded(FinishSpending(t, q, hash).t, session)
    ensures KeyEnded(t, key) ==> KeyEnded(FinishSpending(t, q, hash).t, key)
  {
    hide UserByEmail, UserResetsSpent, UnrevokedCount;
  }

  lemma {:induction false} RunAllKeepsEnded(s: System, steps: seq<Timed>, session: Digest, key: Digest)
    ensures SessionEnded(s.t, session) ==> SessionEnded(RunAll(s, steps).t, session)
    ensures KeyEnded(s.t, key) ==> KeyEnded(RunAll(s, steps).t, key)
    decreases |steps|
  {
    hide SessionEnded, KeyEnded, Next, Commits, Commit;
    if steps != [] {
      var now, a := steps[0].now, steps[0].action;
      if Commits(s, now, a) {
        CommitFacts(s, now, a);
        CommitKeepsEnded(s, now, a, session, key);
      } else {
        ReadingFacts(s, now, a);
      }
      RunAllKeepsEnded(Next(s, now, a), steps[1..], session, key);
    }
  }

  /** However requests interleave: once the revocation of a key commits, no later request authenticates with it. */
  lemma RevokedKeysStayDeadInterleaved(s: System, now: Time, r: RequestId, id: Id, later: seq<Timed>, at: Time,
                                       q: RequestId)
    requires Consistent(s.t) && Commits(s, now, RevokingKey(r, id))
    ensures id in s.t.apiKeys
    ensures var after := RunAll(Next(s, now, RevokingKey(r, id)), later);
            && AuthenticateApiKey(after.t, at, s.t.apiKeys[id].token) == Failed(Unauthenticated)
            && Progressed(after, at, AuthenticateWithKey(q, s.t.apiKeys[id].token)).None?
  {
    hide Consistent, RevokeApiKey, KeyEnded, Next, RunAll, RespectsClaims;
    CommitFacts(s, now, RevokingKey(r, id));
    DoneOrRefused(s.t, now, s.requests[r].user, id);
    RevokedKeyEnds(s.t, now, s.requests[r].user, id);
    RunAllKeepsEnded(Next(s, now, RevokingKey(r, id)), later, 0, s.t.apiKeys[id].token);
    EndedKeyIsRefused(RunAll(Next(s, now, RevokingKey(r, id)), later).t, at, s.t.apiKeys[id].token);
  }

  lemma DoneOrRefused(t: Tables, now: Time, actor: Id, id: Id)
    ensures RevokeApiKey(t, now, actor, id).reply == Done || RevokeApiKey(t, now, actor, id).reply.Failed?
  {}

  /** What a commit is meant to end: as a command of its own, or by spending a reset link of the session's account. */
  ghost predicate CommitEnds(s: System, now: Time, a: Action, i: Id)
    requires i in s.t.sessions
  {
    if CommandOf(s, now, a).Some? then
      EndsSession(s.t, now, CommandOf(s, now, a).value, i) && Commit(s, now, a).Some?
      && Commit(s, now, a).value.reply == Done
    else
      a.Spending? && a.r in s.requests && s.requests[a.r].Claimed? && s.requests[a.r].kind.ResetToken?
      && s.requests[a.r].row in s.t.resets
      && s.t.resets[s.requests[a.r].row].userId == s.t.sessions[i].userId
  }

  lemma SpentLinkEnds(t: Tables, now: Time, row: Id, hash: string, i: Id)
    requires Consistent(t) && row in t.resets && i in t.sessions && t.resets[row].userId == t.sessions[i].userId
    ensures SessionEnded(FinishReset(t, now, row, hash).t, t.sessions[i].token)
  {
    hide UsersOk, RolesOk, SeedsOk, GrantsOk, AssignmentsOk, InvitationsOk, OneOpenInvitation, KeysOk,
         VerificationsOk, UnrevokedCount, UserResetsSpent;
  }

  lemma CommitEndsIt(s: System, now: Time, a: Action, i: Id)
    requires Consistent(s.t) && Commits(s, now, a) && i in s.t.sessions && CommitEnds(s, now, a, i)
    ensures SessionEnded(Commit(s, now, a).value.t, s.t.sessions[i].token)
  {
    hide Consistent, Step, SessionEnded, EndsSession, FinishReset, RespectsClaims;
    if CommandOf(s, now, a).Some? {
      CommitIsStep(s, now, a);
      EndingStep(s.t, now, CommandOf(s, now, a).value, i);
    } else {
      SpentLinkEnds(s.t, s.requests[a.r].startedAt, s.requests[a.r].row, a.hash, i);
    }
  }

  /** And once a commit ends a session, whichever of the five does, no later request authenticates with it. */
  lemma EndedSessionsStayDeadInterleaved(s: System, now: Time, a: Action, i: Id, later: seq<Timed>, at: Time,
                                         q: RequestId)
    requires Consistent(s.t) && Commits(s, now, a) && i in s.t.sessions && CommitEnds(s, now, a, i)
    ensures var after := RunAll(Next(s, now, a), later);
            && AuthenticateSession(after.t, at, s.t.sessions[i].token) == Failed(Unauthenticated)
            && Progressed(after, at, Authenticate(q, s.t.sessions[i].token)).None?
  {
    hide Consistent, Commit, Commits, SessionEnded, CommitEnds, Next, RunAll;
    CommitFacts(s, now, a);
    CommitEndsIt(s, now, a, i);
    RunAllKeepsEnded(Next(s, now, a), later, s.t.sessions[i].token, 0);
    EndedNeverSignsIn(RunAll(Next(s, now, a), later).t, at, s.t.sessions[i].token);
  }

  // ---------------------------------------------------------------- reset links

  ghost predicate LinkDead(t: Tables, token: Digest) {
    token < t.nextId && forall i :: i in t.resets && t.resets[i].token == token ==> t.resets[i].usedAt.Some?
  }

  lemma StepKeepsLinkDead(t: Tables, now: Time, c: Command, token: Digest)
    requires LinkDead(t, token)
    ensures LinkDead(Step(t, now, c).t, token)
  {
    hide UserByEmail, HoldsRole, ActiveHolders, LoginRefusal, UserSessionsRevoked, UnrevokedCount, Register, Login,
         ChangePassword, SetUserActive,
         SetSuperuser, GrantRoleByKey, Invite, RevokeInvitation, AcceptInvitation, CreateRole, UpdateRole, DeleteRole,
         SetUserRoles, CreateApiKey, SendVerification, VerifyEmail;
    IdsGrow(t, now, c);
    if !WritesResets(c) {
      ResetsFrame(t, now, c);
    }
  }

  lemma {:induction false} RunKeepsLinkDead(t: Tables, es: seq<Event>, token: Digest)
    requires LinkDead(t, token)
    ensures LinkDead(Run(t, es), token)
    decreases |es|
  {
    hide LinkDead, Step;
    if es != [] {
      StepKeepsLinkDead(t, es[0].now, es[0].command, token);
      RunKeepsLinkDead(Step(t, es[0].now, es[0].command).t, es[1..], token);
    }
  }

  /** Both a completed reset and a newly issued link spend every earlier link of the user. */
  ghost predicate SpendsLinksOf(t: Tables, now: Time, c: Command, userId: Id) {
    match c
    case CResetPassword(token, _, ok) =>
      ok && SpendableReset(t.resets, token, now).Some?
      && t.resets[SpendableReset(t.resets, token, now).value].userId == userId
    case CRequestPasswordReset(email, _) =>
      UserByEmail(t.users, email) == Some(userId) && ResetRefusal(t.users[userId]).None?
    case _ => false
  }

  lemma SpendingStep(t: Tables, now: Time, c: Command, userId: Id, i: Id)
    requires Consistent(t) && SpendsLinksOf(t, now, c, userId)
    requires i in t.resets && t.resets[i].userId == userId
    ensures LinkDead(Step(t, now, c).t, t.resets[i].token)
  {
    hide UsersOk, RolesOk, SeedsOk, GrantsOk, AssignmentsOk, InvitationsOk, OneOpenInvitation, KeysOk, SessionsOk,
         VerificationsOk, UserSessionsRevoked, UnrevokedCount;
    if c.CResetPassword? {
      assert Step(t, now, c).t.resets == UserResetsSpent(t.resets, userId, now);
    }
  }

  /** No reset link issued before a completed reset, or before a newer link, is ever accepted again. */
  lemma OldLinksStayDead(t: Tables, now: Time, c: Command, userId: Id, i: Id, later: seq<Event>, at: Time, hash: string)
    requires Consistent(t) && SpendsLinksOf(t, now, c, userId)
    requires i in t.resets && t.resets[i].userId == userId
    ensures ResetPassword(Run(Step(t, now, c).t, later), at, t.resets[i].token, hash, true).reply
            == Failed(InvalidToken)
  {
    hide Consistent, Step, SpendsLinksOf;
    SpendingStep(t, now, c, userId, i);
    RunKeepsLinkDead(Step(t, now, c).t, later, t.resets[i].token);
  }
}
