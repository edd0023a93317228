/** Passwords and the accounts they open: which password signs in after each transaction, and what can change that. */
module Credentials {
  import opened Prelude
  import opened Tables
  import opened Transactions
  import opened SerialMachine
  import opened Constraints
  import opened Frames
  import PHC = PasswordHash
  import opened Base64

  ghost function StoredHash(users: map<Id, User>, email: string): Option<string> {
    var found := UserByEmail(users, email);
    if found.None? then None else users[found.value].passwordHash
  }

  /** What the hasher says of a stored hash. */
  function VerdictOn(hash: Option<string>, kdf: PHC.Kdf, password: string): Verdict {
    if hash.None? then Mismatch
    else match PHC.Verify(kdf, password, hash.value)
         case Verified => Match
         case Mismatch => Mismatch
         case Unreadable(_) => Unreadable
  }

  /** The hash to store instead, if one is due and storing it works. */
  function UpgradeOf(hash: Option<string>, hasher: PHC.Hasher, kdf: PHC.Kdf, password: string,
                     salt: seq<Byte>, stored: bool): Option<string> {
    if hash.Some? && stored && PHC.NeedsRehash(hasher, hash.value)
    then Some(PHC.Hash(hasher, kdf, password, salt)) else None
  }

  /** The password opens an account: an active one with this address whose stored hash verifies it. */
  ghost predicate SignsIn(users: map<Id, User>, kdf: PHC.Kdf, email: string, password: string) {
    exists u :: u in users && users[u].email == email && Opens(users[u], kdf, password)
  }

  ghost predicate Opens(user: User, kdf: PHC.Kdf, password: string) {
    user.isActive && user.passwordHash.Some? && PHC.Verify(kdf, password, user.passwordHash.value).Verified?
  }

  /** Both passwords derive the same key. */
  ghost predicate SameKey(h: PHC.Hasher, kdf: PHC.Kdf, salt: seq<Byte>, a: string, b: string) {
    kdf(a, salt, h.iterations, h.memoryKiB, h.parallelism, PHC.KEY_LENGTH)
    == kdf(b, salt, h.iterations, h.memoryKiB, h.parallelism, PHC.KEY_LENGTH)
  }

  /** A login issues a session exactly for a password that opens the account with that address. */
  lemma SignsInExactly(t: Tables, now: Time, email: string, kdf: PHC.Kdf, password: string, upgrade: Option<string>,
                       ttl: int)
    requires Consistent(t)
    ensures Login(t, now, email, VerdictOn(StoredHash(t.users, email), kdf, password), upgrade, ttl).reply.Issued?
            <==> SignsIn(t.users, kdf, email, password)
  {
    hide RolesOk, SeedsOk, GrantsOk, AssignmentsOk, InvitationsOk, OneOpenInvitation, KeysOk, SessionsOk, ResetsOk,
         VerificationsOk, PHC.Verify;
  }

  /** Whatever is wrong with a login, the answer is the same, and only the log tells which it was: no such account, one
      without a password, one switched off, a wrong password, a hash that cannot be read. */
  lemma RefusalsLookAlike(t: Tables, now: Time, email: string, verdict: Verdict, upgrade: Option<string>, ttl: int)
    requires Consistent(t)
    ensures var o := Login(t, now, email, verdict, upgrade, ttl);
            && (o.reply.Issued? || o.reply == Failed(InvalidCredentials))
            && ((forall u :: u in t.users ==> t.users[u].email != email) ==>
                  o.t == t && o.entry == Some(LoginFailed(None, email, UnknownEmail)))
            && forall u :: u in t.users && t.users[u].email == email && !o.reply.Issued? ==>
                 && o.t == t && o.entry.Some? && o.entry.value.LoginFailed?
                 && o.entry.value.claimed == Some(u) && o.entry.value.email == email
                 && (o.entry.value.reason == NoPasswordSet <==> t.users[u].passwordHash.None?)
                 && (o.entry.value.reason == Deactivated <==>
                       t.users[u].passwordHash.Some? && !t.users[u].isActive)
                 && (o.entry.value.reason == WrongPassword ==> verdict == Mismatch)
                 && (o.entry.value.reason == CorruptHash ==> verdict == Unreadable)
  {
    hide RolesOk, SeedsOk, GrantsOk, AssignmentsOk, InvitationsOk, OneOpenInvitation, KeysOk, SessionsOk, ResetsOk,
         VerificationsOk;
  }

  /** A reset request is answered the same whatever it finds; what it found is in the log. */
  lemma RequestsLookAlike(t: Tables, now: Time, email: string, ttl: int)
    requires Consistent(t)
    ensures var o := RequestPasswordReset(t, now, email, ttl);
            && o.reply == Done
            && ((forall u :: u in t.users ==> t.users[u].email != email) ==>
                  o.entry == Some(PasswordResetRejected(None, email, UnknownEmail)))
            && forall u :: u in t.users && t.users[u].email == email ==>
                 o.entry == Some(if !t.users[u].isActive then PasswordResetRejected(Some(u), email, Deactivated)
                                 else if t.users[u].passwordHash.None?
                                      then PasswordResetRejected(Some(u), email, NoPasswordSet)
                                 else PasswordResetRequested(u, email))
  {
    hide RolesOk, SeedsOk, GrantsOk, AssignmentsOk, InvitationsOk, OneOpenInvitation, KeysOk, SessionsOk, ResetsOk,
         VerificationsOk, UserResetsSpent;
  }

  // ---------------------------------------------------------------- setting a password

  /** Once user `u` has the hash of `password`, a guess opens the account exactly if the account is active and the guess
      derives the same key; and nothing changes for any other address. */
  lemma PasswordStored(before: map<Id, User>, after: map<Id, User>, u: Id, h: PHC.Hasher, kdf: PHC.Kdf,
                       password: string, salt: seq<Byte>, email: string, guess: string)
    requires PHC.GivesKeys(kdf) && u in after && after[u].passwordHash == Some(PHC.Hash(h, kdf, password, salt))
    requires forall v :: v in after && v != u ==> v in before && after[v] == before[v]
    requires forall v :: v in before && v != u ==> v in after
    requires u in before ==> before[u].email == after[u].email
    requires forall v, w :: v in after && w in after && after[v].email == after[w].email ==> v == w
    ensures SignsIn(after, kdf, email, guess)
            <==> if email == after[u].email then after[u].isActive && SameKey(h, kdf, salt, password, guess)
                 else SignsIn(before, kdf, email, guess)
  {
    hide PHC.Verify, PHC.Hash;
    PHC.AnyHasherVerifiesAnother(h, kdf, password, salt, guess);
    if email == after[u].email {
      if after[u].isActive && SameKey(h, kdf, salt, password, guess) {
        assert Opens(after[u], kdf, guess);
      }
    } else if SignsIn(before, kdf, email, guess) {
      var v :| v in before && before[v].email == email && Opens(before[v], kdf, guess);
      assert v in after && after[v] == before[v];
    }
  }

  /** After a registration exactly the chosen password opens the new account. */
  lemma RegisteredSignsIn(t: Tables, address: string, password: string, h: PHC.Hasher, kdf: PHC.Kdf, salt: seq<Byte>,
                          ok: bool, email: string, guess: string)
    requires Consistent(t) && PHC.GivesKeys(kdf)
    requires Register(t, address, PHC.Hash(h, kdf, password, salt), ok).reply.NewRow?
    ensures SignsIn(Register(t, address, PHC.Hash(h, kdf, password, salt), ok).t.users, kdf, email, guess)
            <==> if email == address then SameKey(h, kdf, salt, password, guess)
                 else SignsIn(t.users, kdf, email, guess)
  {
    hide Consistent, UsersOk, PHC.Hash, SignsIn, SameKey;
    Unfolded(t);
    UsersAre(t);
    var o := Register(t, address, PHC.Hash(h, kdf, password, salt), ok);
    PasswordStored(t.users, o.t.users, t.nextId, h, kdf, password, salt, email, guess);
  }

  /** The same once invitation row `i` has been claimed, in the service's transaction or in the split machine's. */
  lemma RedeemedSignsIn(t: Tables, now: Time, i: Id, password: string, h: PHC.Hasher, kdf: PHC.Kdf, salt: seq<Byte>,
                        email: string, guess: string)
    requires Consistent(t) && PHC.GivesKeys(kdf) && i in t.invitations
    requires RedeemInvitation(t, now, i, PHC.Hash(h, kdf, password, salt)).reply.NewRow?
    ensures SignsIn(RedeemInvitation(t, now, i, PHC.Hash(h, kdf, password, salt)).t.users, kdf, email, guess)
            <==> if email == t.invitations[i].email then SameKey(h, kdf, salt, password, guess)
                 else SignsIn(t.users, kdf, email, guess)
  {
    hide Consistent, UsersOk, PHC.Hash, SignsIn, SameKey;
    Unfolded(t);
    UsersAre(t);
    var o := RedeemInvitation(t, now, i, PHC.Hash(h, kdf, password, salt));
    PasswordStored(t.users, o.t.users, t.nextId, h, kdf, password, salt, email, guess);
  }

  /** After an accepted invitation exactly the chosen password opens the new account. */
  lemma AcceptedSignsIn(t: Tables, now: Time, token: Digest, password: string, h: PHC.Hasher, kdf: PHC.Kdf,
                        salt: seq<Byte>, ok: bool, i: Id, email: string, guess: string)
    requires Consistent(t) && PHC.GivesKeys(kdf) && i in t.invitations && t.invitations[i].token == token
    requires AcceptInvitation(t, now, token, PHC.Hash(h, kdf, password, salt), ok).reply.NewRow?
    ensures SignsIn(AcceptInvitation(t, now, token, PHC.Hash(h, kdf, password, salt), ok).t.users, kdf, email, guess)
            <==> if email == t.invitations[i].email then SameKey(h, kdf, salt, password, guess)
                 else SignsIn(t.users, kdf, email, guess)
  {
    hide Consistent, PHC.Hash, SignsIn, SameKey, RedeemInvitation;
    InvitationTokensDiffer(t);
    RedeemedSignsIn(t, now, i, password, h, kdf, salt, email, guess);
  }

  lemma InvitationTokensDiffer(t: Tables)
    requires Consistent(t)
    ensures forall i, j :: i in t.invitations && j in t.invitations && t.invitations[i].token == t.invitations[j].token
                           ==> i == j
  {
    hide UsersOk, RolesOk, SeedsOk, GrantsOk, AssignmentsOk, KeysOk, SessionsOk, ResetsOk, VerificationsOk,
         OneOpenInvitation;
  }

  lemma UsersAre(t: Tables)
    requires UsersOk(t.users, t.nextId)
    ensures forall u :: u in t.users ==> u < t.nextId
    ensures forall u, v :: u in t.users && v in t.users && t.users[u].email == t.users[v].email ==> u == v
  {}

  /** After a change of password exactly the new one opens the account, if it is active; the old one is out. */
  lemma ChangedSignsIn(t: Tables, now: Time, userId: Id, verdict: Verdict, next: string, h: PHC.Hasher, kdf: PHC.Kdf,
                       salt: seq<Byte>, ok: bool, email: string, guess: string)
    requires Consistent(t) && PHC.GivesKeys(kdf)
    requires ChangePassword(t, now, userId, verdict, PHC.Hash(h, kdf, next, salt), ok).reply == Done
    ensures userId in t.users
    ensures SignsIn(ChangePassword(t, now, userId, verdict, PHC.Hash(h, kdf, next, salt), ok).t.users, kdf, email,
                    guess)
            <==> if email == t.users[userId].email
                 then t.users[userId].isActive && SameKey(h, kdf, salt, next, guess)
                 else SignsIn(t.users, kdf, email, guess)
  {
    hide Consistent, PHC.Hash, SignsIn, SameKey, UserSessionsRevoked, UnrevokedCount;
    Unfolded(t);
    var o := ChangePassword(t, now, userId, verdict, PHC.Hash(h, kdf, next, salt), ok);
    PasswordStored(t.users, o.t.users, userId, h, kdf, next, salt, email, guess);
  }

  /** The same once reset row `i` has been claimed, in the service's transaction or in the split machine's. */
  lemma FinishedResetSignsIn(t: Tables, now: Time, i: Id, next: string, h: PHC.Hasher, kdf: PHC.Kdf, salt: seq<Byte>,
                             email: string, guess: string)
    requires Consistent(t) && PHC.GivesKeys(kdf) && i in t.resets
    ensures FinishReset(t, now, i, PHC.Hash(h, kdf, next, salt)).reply == Done && t.resets[i].userId in t.users
    ensures SignsIn(FinishReset(t, now, i, PHC.Hash(h, kdf, next, salt)).t.users, kdf, email, guess)
            <==> if email == t.users[t.resets[i].userId].email
                 then t.users[t.resets[i].userId].isActive && SameKey(h, kdf, salt, next, guess)
                 else SignsIn(t.users, kdf, email, guess)
  {
    hide RolesOk, SeedsOk, GrantsOk, AssignmentsOk, InvitationsOk, OneOpenInvitation, KeysOk, SessionsOk,
         VerificationsOk, PHC.Hash, SignsIn, SameKey, UserSessionsRevoked, UnrevokedCount, UserResetsSpent;
    var o := FinishReset(t, now, i, PHC.Hash(h, kdf, next, salt));
    PasswordStored(t.users, o.t.users, t.resets[i].userId, h, kdf, next, salt, email, guess);
  }

  /** After a completed reset exactly the new password opens the account the link belongs to. */
  lemma ResetSignsIn(t: Tables, now: Time, token: Digest, next: string, h: PHC.Hasher, kdf: PHC.Kdf, salt: seq<Byte>,
                     ok: bool, i: Id, email: string, guess: string)
    requires Consistent(t) && PHC.GivesKeys(kdf) && i in t.resets && t.resets[i].token == token
    requires ResetPassword(t, now, token, PHC.Hash(h, kdf, next, salt), ok).reply == Done
    ensures t.resets[i].userId in t.users
    ensures SignsIn(ResetPassword(t, now, token, PHC.Hash(h, kdf, next, salt), ok).t.users, kdf, email, guess)
            <==> if email == t.users[t.resets[i].userId].email
                 then t.users[t.resets[i].userId].isActive && SameKey(h, kdf, salt, next, guess)
                 else SignsIn(t.users, kdf, email, guess)
  {
    hide Consistent, PHC.Hash, SignsIn, SameKey, FinishReset;
    ResetTokensDiffer(t);
    FinishedResetSignsIn(t, now, i, next, h, kdf, salt, email, guess);
  }

  lemma ResetTokensDiffer(t: Tables)
    requires Consistent(t)
    ensures forall i, j :: i in t.resets && j in t.resets && t.resets[i].token == t.resets[j].token ==> i == j
  {
    hide UsersOk, RolesOk, SeedsOk, GrantsOk, AssignmentsOk, InvitationsOk, OneOpenInvitation, KeysOk, SessionsOk,
         VerificationsOk;
  }

  // ---------------------------------------------------------------- when a link is accepted

  /** A reset succeeds exactly for an unspent, unexpired link, and then overwrites the hash of its account and no other
      column of any; a refusal changes nothing. */
  lemma ResetAnswers(t: Tables, now: Time, token: Digest, hash: string, ok: bool)
    requires Consistent(t)
    ensures var o := ResetPassword(t, now, token, hash, ok);
            && (o.reply == Done <==>
                  ok && exists i :: i in t.resets && t.resets[i].token == token && t.resets[i].usedAt.None?
                                    && t.resets[i].expiresAt > now)
            && (o.reply != Done ==> o.t == t && o.entry == None)
            && (o.reply == Done ==>
                  exists i :: i in t.resets && t.resets[i].token == token && t.resets[i].userId in t.users
                    && o.t.users == t.users[t.resets[i].userId :=
                         t.users[t.resets[i].userId].(passwordHash := Some(hash))])
  {
    hide UsersOk, RolesOk, SeedsOk, GrantsOk, AssignmentsOk, InvitationsOk, OneOpenInvitation, KeysOk, SessionsOk,
         VerificationsOk, UserSessionsRevoked, UnrevokedCount, UserResetsSpent;
  }

  /** Neither accepted nor withdrawn, and not expired. */
  predicate Acceptable(inv: Invitation, now: Time) {
    inv.acceptedAt.None? && inv.revokedAt.None? && inv.expiresAt > now
  }

  /** An acceptance succeeds exactly for such an invitation to an address without an account, and creates the account it
      was for, verified and with the offered role; a refusal changes nothing. */
  lemma AcceptanceAnswers(t: Tables, now: Time, token: Digest, hash: string, ok: bool)
    requires Consistent(t)
    ensures var o := AcceptInvitation(t, now, token, hash, ok);
            && (o.reply.NewRow? <==>
                  ok && exists i :: i in t.invitations && Acceptable(t.invitations[i], now)
                                    && t.invitations[i].token == token
                                    && forall u :: u in t.users ==> t.users[u].email != t.invitations[i].email)
            && (o.reply == Failed(EmailTaken) ==>
                  exists i, u :: i in t.invitations && Acceptable(t.invitations[i], now)
                                 && t.invitations[i].token == token && u in t.users
                                 && t.users[u].email == t.invitations[i].email)
            && (!o.reply.NewRow? ==> o.t == t && o.entry == None)
            && (o.reply.NewRow? ==>
                  exists i :: i in t.invitations && t.invitations[i].token == token
                    && o.t.users == t.users[o.reply.id :=
                         User(t.invitations[i].email, Some(hash), false, true, Some(now))]
                    && o.t.userRoles == t.userRoles + {(o.reply.id, t.invitations[i].roleId)})
  {
    hide UsersOk, RolesOk, SeedsOk, GrantsOk, AssignmentsOk, OneOpenInvitation, KeysOk, SessionsOk, ResetsOk,
         VerificationsOk;
  }

  /** A verification succeeds exactly for an unspent, unexpired link to what is still the account's address, and then
      spends the link and marks that account verified; a refusal changes nothing. */
  lemma VerificationAnswers(t: Tables, now: Time, token: Digest)
    requires Consistent(t)
    ensures var o := VerifyEmail(t, now, token);
            && (o.reply == Done <==>
                  exists i :: i in t.verifications && t.verifications[i].token == token
                    && t.verifications[i].usedAt.None? && t.verifications[i].expiresAt > now
                    && t.verifications[i].userId in t.users
                    && t.users[t.verifications[i].userId].email == t.verifications[i].email)
            && (o.reply != Done ==> o.t == t && o.entry == None)
            && (o.reply == Done ==>
                  exists i :: i in t.verifications && t.verifications[i].token == token
                    && t.verifications[i].userId in t.users
                    && o.t.users == t.users[t.verifications[i].userId :=
                         t.users[t.verifications[i].userId].(verifiedAt := Some(now))]
                    && o.t.verifications == t.verifications[i := t.verifications[i].(usedAt := Some(now))])
  {
    hide UsersOk, RolesOk, SeedsOk, GrantsOk, AssignmentsOk, InvitationsOk, OneOpenInvitation, KeysOk, SessionsOk,
         ResetsOk;
  }

  // ---------------------------------------------------------------- what can change a password

  /** The three ways to a new hash: knowing the current password, twice, and holding a live link. */
  ghost predicate MayRewrite(t: Tables, now: Time, c: Command, u: Id)
    requires u in t.users
  {
    match c
    case CChangePassword(id, verdict, _, ok) => id == u && ok && verdict.Match? && t.users[u].passwordHash.Some?
    case CLogin(email, verdict, upgrade, _) =>
      email == t.users[u].email && verdict.Match? && upgrade.Some? && t.users[u].passwordHash.Some?
      && t.users[u].isActive
    case CResetPassword(token, _, ok) =>
      ok && exists i :: i in t.resets && t.resets[i].token == token && t.resets[i].userId == u
                        && t.resets[i].usedAt.None? && t.resets[i].expiresAt > now
    case _ => false
  }

  /** What a step may do to account `u`. */
  ghost predicate AccountKept(t: Tables, now: Time, c: Command, after: map<Id, User>, u: Id)
    requires u in t.users
  {
    && u in after && after[u].email == t.users[u].email
    && (after[u].passwordHash == t.users[u].passwordHash || MayRewrite(t, now, c, u))
    && (after[u].isActive == t.users[u].isActive || (c.CSetUserActive? && c.target == u))
  }

  lemma AcceptKeepsPasswords(t: Tables, now: Time, token: Digest, hash: string, ok: bool, u: Id)
    requires UsersOk(t.users, t.nextId) && u in t.users
    ensures AccountKept(t, now, CAcceptInvitation(token, hash, ok),
                        AcceptInvitation(t, now, token, hash, ok).t.users, u)
  {
    hide UserByEmail, MayRewrite, UsersOk, OfferedInvitation;
    UsersAre(t);
  }

  lemma ResetKeepsPasswords(t: Tables, now: Time, token: Digest, hash: string, ok: bool, u: Id)
    requires u in t.users
    ensures AccountKept(t, now, CResetPassword(token, hash, ok), ResetPassword(t, now, token, hash, ok).t.users, u)
  {
    hide UserSessionsRevoked, UserResetsSpent, UnrevokedCount;
  }

  lemma VerifyKeepsPasswords(t: Tables, now: Time, token: Digest, u: Id)
    requires u in t.users
    ensures AccountKept(t, now, CVerifyEmail(token), VerifyEmail(t, now, token).t.users, u)
  {}

  /** Same address and hash, and the same switch unless `switched`. */
  ghost predicate RowKept(before: map<Id, User>, after: map<Id, User>, u: Id, switched: bool) {
    u in before ==>
      && u in after && after[u].email == before[u].email && after[u].passwordHash == before[u].passwordHash
      && (after[u].isActive == before[u].isActive || switched)
  }

  lemma RowWritten(users: map<Id, User>, id: Id, user: User, u: Id)
    requires id in users ==> user.email == users[id].email && user.passwordHash == users[id].passwordHash
    ensures RowKept(users, users, u, false)
    ensures RowKept(users, users[id := user], u, id == u && id in users && user.isActive != users[id].isActive)
  {}

  lemma SwitchesKeepPasswords(t: Tables, now: Time, c: Command, u: Id)
    requires UsersOk(t.users, t.nextId) && u in t.users
    requires c.CRegister? || c.CSetUserActive? || c.CSetSuperuser?
    ensures AccountKept(t, now, c, Step(t, now, c).t.users, u)
  {
    RowKeptIs(t, now, c, u);
    hide UserSessionsRevoked, UnrevokedCount, HoldsRole, ActiveHolders, UsersOk, MayRewrite, AccountKept, RowKept;
    UsersAre(t);
    match c
    case CRegister(email, hash, _) => RowWritten(t.users, t.nextId, User(email, Some(hash), false, true, None), u);
    case CSetUserActive(_, _, id, active) =>
      if id in t.users {
        RowWritten(t.users, id, t.users[id].(isActive := active), u);
      }
    case CSetSuperuser(email, flag, _) =>
      var found := UserByEmail(t.users, email);
      if found.Some? {
        RowWritten(t.users, found.value, t.users[found.value].(isSuperuser := flag), u);
      }
  }

  lemma RowKeptIs(t: Tables, now: Time, c: Command, u: Id)
    requires u in t.users
    ensures forall after, switched ::
              RowKept(t.users, after, u, switched) && (switched ==> c.CSetUserActive? && c.target == u) ==>
                AccountKept(t, now, c, after, u)
  {
    hide MayRewrite;
  }

  lemma LoginKeepsPasswords(t: Tables, now: Time, email: string, verdict: Verdict, upgrade: Option<string>, ttl: int,
                            u: Id)
    requires UsersOk(t.users, t.nextId) && u in t.users
    ensures AccountKept(t, now, CLogin(email, verdict, upgrade, ttl),
                        Login(t, now, email, verdict, upgrade, ttl).t.users, u)
  {
    hide UsersOk;
    UsersAre(t);
  }

  lemma ChangeKeepsPasswords(t: Tables, now: Time, id: Id, verdict: Verdict, hash: string, ok: bool, u: Id)
    requires u in t.users
    ensures AccountKept(t, now, CChangePassword(id, verdict, hash, ok),
                        ChangePassword(t, now, id, verdict, hash, ok).t.users, u)
  {
    hide UserSessionsRevoked, UnrevokedCount;
  }

  lemma WritersKeepPasswords(t: Tables, now: Time, c: Command, u: Id)
    requires UsersOk(t.users, t.nextId) && u in t.users && WritesUsers(c)
    ensures AccountKept(t, now, c, Step(t, now, c).t.users, u)
  {
    hide UsersOk, MayRewrite, AccountKept, Login, ChangePassword, AcceptInvitation, ResetPassword, VerifyEmail,
         Register, SetUserActive, SetSuperuser;
    match c
    case CAcceptInvitation(token, hash, ok) => AcceptKeepsPasswords(t, now, token, hash, ok, u);
    case CResetPassword(token, hash, ok) => ResetKeepsPasswords(t, now, token, hash, ok, u);
    case CVerifyEmail(token) => VerifyKeepsPasswords(t, now, token, u);
    case CLogin(email, verdict, upgrade, ttl) => LoginKeepsPasswords(t, now, email, verdict, upgrade, ttl, u);
    case CChangePassword(id, verdict, hash, ok) => ChangeKeepsPasswords(t, now, id, verdict, hash, ok, u);
    case _ => SwitchesKeepPasswords(t, now, c, u);
  }

  /** Accounts stay, keep their address, and get a new hash only in those three ways; only an administrator's switch
      changes whether one is active. */
  lemma StepKeepsPassword(t: Tables, now: Time, c: Command, u: Id)
    requires Consistent(t) && u in t.users
    ensures AccountKept(t, now, c, Step(t, now, c).t.users, u)
  {
    hide Consistent, Step, MayRewrite;
    Unfolded(t);
    if WritesUsers(c) {
      WritersKeepPasswords(t, now, c, u);
    } else {
      UsersFrame(t, now, c);
    }
  }

  /** The event does not take the password away: no change and no reset of this account, no deactivation, and a login
      on it stores only an upgrade of the same password. */
  ghost predicate Spares(t: Tables, e: Event, u: Id, kdf: PHC.Kdf, password: string)
    requires u in t.users
  {
    && !(e.command.CSetUserActive? && e.command.target == u)
    && (MayRewrite(t, e.now, e.command, u) ==>
          e.command.CLogin? && PHC.Verify(kdf, password, e.command.upgrade.value).Verified?)
  }

  ghost predicate AllSpare(t: Tables, es: seq<Event>, u: Id, kdf: PHC.Kdf, password: string)
    decreases |es|
  {
    es == [] || (u in t.users && Spares(t, es[0], u, kdf, password)
                 && AllSpare(Step(t, es[0].now, es[0].command).t, es[1..], u, kdf, password))
  }

  lemma SparedStillOpens(t: Tables, e: Event, u: Id, kdf: PHC.Kdf, password: string)
    requires Consistent(t) && u in t.users && Opens(t.users[u], kdf, password) && Spares(t, e, u, kdf, password)
    ensures var after := Step(t, e.now, e.command).t.users;
            u in after && after[u].email == t.users[u].email && Opens(after[u], kdf, password)
  {
    hide Consistent, Step, PHC.Verify;
    StepKeepsPassword(t, e.now, e.command, u);
    if MayRewrite(t, e.now, e.command, u) {
      UpgradeIsStored(t, e.now, e.command, u);
    }
  }

  lemma UpgradeIsStored(t: Tables, now: Time, c: Command, u: Id)
    requires Consistent(t) && u in t.users && c.CLogin? && MayRewrite(t, now, c, u)
    ensures Step(t, now, c).t.users[u].passwordHash == c.upgrade
  {
    hide RolesOk, SeedsOk, GrantsOk, AssignmentsOk, InvitationsOk, OneOpenInvitation, KeysOk, SessionsOk, ResetsOk,
         VerificationsOk;
  }

  /** A password keeps opening its account over every run that does not change it, reset it or switch the account off,
      whatever happens to other accounts and however often its hash is upgraded. */
  lemma {:induction false} PasswordKeepsWorking(t: Tables, es: seq<Event>, u: Id, kdf: PHC.Kdf, password: string)
    requires Consistent(t) && u in t.users && Opens(t.users[u], kdf, password) && AllSpare(t, es, u, kdf, password)
    ensures SignsIn(Run(t, es).users, kdf, t.users[u].email, password)
    decreases |es|
  {
    hide Consistent, Step, Opens, Spares;
    if es != [] {
      SparedStillOpens(t, es[0], u, kdf, password);
      StepConsistent(t, es[0].now, es[0].command);
      PasswordKeepsWorking(Step(t, es[0].now, es[0].command).t, es[1..], u, kdf, password);
    }
  }
}
