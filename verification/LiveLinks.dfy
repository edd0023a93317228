/** At most one live link per address or account, over serialised transactions. */
module LiveLinks {
  import opened Prelude
  import opened Permissions
  import opened Tables
  import opened Transactions
  import opened SerialMachine
  import opened Constraints
  import opened Frames

  ghost predicate OneUnspentReset(resets: map<Id, Reset>) {
    forall i, j | i in resets && j in resets && resets[i].usedAt.None? && resets[j].usedAt.None? ::
      resets[i].userId == resets[j].userId ==> i == j
  }

  ghost predicate OneUnspentVerification(vs: map<Id, Verification>) {
    forall i, j | i in vs && j in vs && vs[i].usedAt.None? && vs[j].usedAt.None? ::
      vs[i].userId == vs[j].userId ==> i == j
  }

  lemma ResetStepKeepsOne(t: Tables, now: Time, c: Command)
    requires OneUnspentReset(t.resets)
    ensures OneUnspentReset(Step(t, now, c).t.resets)
  {
    if WritesResets(c) {
      hide UserByEmail, UserSessionsRevoked, UnrevokedCount;
    } else {
      hide OneUnspentReset, Step;
      ResetsFrame(t, now, c);
    }
  }

  lemma VerificationStepKeepsOne(t: Tables, now: Time, c: Command)
    requires OneUnspentVerification(t.verifications)
    ensures OneUnspentVerification(Step(t, now, c).t.verifications)
  {
    if WritesVerifications(c) {
      hide UserByEmail;
    } else {
      hide OneUnspentVerification, Step;
      VerificationsFrame(t, now, c);
    }
  }

  /** In every state reachable from the seed: one open invitation per address, and per user one unspent reset
      and one unspent verification. */
  lemma {:induction false} OneLiveLink(t: Tables, es: seq<Event>)
    requires Consistent(t) && OneUnspentReset(t.resets) && OneUnspentVerification(t.verifications)
    ensures OneOpenInvitation(Run(t, es).invitations)
    ensures OneUnspentReset(Run(t, es).resets)
    ensures OneUnspentVerification(Run(t, es).verifications)
    decreases |es|
  {
    if es == [] {
      Unfolded(t);
    } else {
      hide Consistent, Step, OneUnspentReset, OneUnspentVerification, OneOpenInvitation;
      StepConsistent(t, es[0].now, es[0].command);
      ResetStepKeepsOne(t, es[0].now, es[0].command);
      VerificationStepKeepsOne(t, es[0].now, es[0].command);
      OneLiveLink(Step(t, es[0].now, es[0].command).t, es[1..]);
    }
  }

  /** Inviting collides with the partial unique index never, so "email taken" means the address has an account. An old
      invitation gets out of the way even when it has expired, because withdrawal does not look at the expiry. */
  lemma InviteNeverCollides(t: Tables, now: Time, actor: Id, access: Access, email: string, roleId: Id, ttl: int)
    requires Consistent(t) && actor in t.users && roleId in t.roles
    requires PermissionsOf(t.rolePermissions, roleId) <= access.permissions
    ensures var o := Invite(t, now, actor, access, email, roleId, ttl, true);
            && (o.reply == Failed(EmailTaken) <==> exists u :: u in t.users && t.users[u].email == email)
            && (o.reply != Failed(EmailTaken) ==> o.reply == NewRow(t.nextId))
  {
    hide Consistent;
  }

  /** An issued invitation is the only open one for its address: every older link is withdrawn. */
  lemma InviteReplacesOlder(t: Tables, now: Time, actor: Id, access: Access, email: string, roleId: Id, ttl: int)
    requires Consistent(t) && Invite(t, now, actor, access, email, roleId, ttl, true).reply == NewRow(t.nextId)
    ensures var after := Invite(t, now, actor, access, email, roleId, ttl, true).t;
            && t.nextId in after.invitations && after.invitations[t.nextId].Open()
            && after.invitations[t.nextId].roleId == roleId
            && forall i :: i in t.invitations && t.invitations[i].email == email ==>
                 i in after.invitations && !after.invitations[i].Open()
  {
    hide UsersOk, RolesOk, SeedsOk, GrantsOk, AssignmentsOk, KeysOk, SessionsOk, ResetsOk, VerificationsOk,
         OneOpenInvitation;
  }

  /** A newly sent verification is the only unspent one of its user. */
  lemma SendReplacesOlder(t: Tables, now: Time, userId: Id, ttl: int)
    requires Consistent(t) && userId in t.users && t.users[userId].verifiedAt.None?
    ensures var vs := SendVerification(t, now, userId, ttl).t.verifications;
            forall i :: i in vs && vs[i].userId == userId ==> (vs[i].usedAt.None? <==> i == t.nextId)
  {
    hide UsersOk, RolesOk, SeedsOk, GrantsOk, AssignmentsOk, KeysOk, SessionsOk, ResetsOk, InvitationsOk,
         OneOpenInvitation;
  }
}
