# Verification of the identity service

This project models the identity service of the repository, its rate limiter, its password hash format and its paging,
in Dafny, and proves what they promise. `dafny verify dfyconfig.toml` checks all of it.

## What is modelled

The **tables** (`Tables.dfy`) are one value: users, roles, role_permissions, user_roles, invitations, api_keys,
sessions, password_resets and email_verifications, with the SELECTs and the set-at-a-time UPDATEs the code runs on them.
`Transactions.dfy` says what each service transaction does to them, what it answers and which audit entry it writes.
`Repository.dfy` and `Service.dfy` are the imperative form: a `Repository` object with one field per table and one method
per statement, and a `Service` object whose methods read, validate, write and roll back. Each service method is proved
equal to its transaction, rollbacks included, and `ServiceRuns.dfy` proves that a run of the object is a run of the
machine below.

Two machines take these transactions as steps.

- The **serial machine** (`SerialMachine.dfy`): one transaction at a time, times that never go back, fresh ids and
  tokens from one counter. On it rest the schema's constraints (`Constraints.dfy`), the structure of roles
  (`RoleStructure.dfy`), the last administrator (`LastAdmin.dfy`), the audit log as a full explanation of the authority
  state (`AuditReplay.dfy`) that leaves nothing out (`AuditCoverage.dfy`), who may grant what (`Granting.dfy`), which
  password opens which account (`Credentials.dfy`), how long each token is good for (`Lifecycles.dfy`), revocation
  (`Revocation.dfy`), one live link per address or account (`LiveLinks.dfy`) and the invisibility of the retention sweeps
  (`Pruning.dfy`).
- The **split-step machine** (`Interleaving.dfy`): any number of requests in flight. A request is authenticated, gets
  its authority, reads what it must and commits in separate steps, so what it read may be stale; a claimed row is held
  until its request commits or gives up. On it rest single-use tokens (`ExactlyOnce.dfy`), the containment of
  authority (`Containment.dfy`), where the authority of every change comes from (`Gatekeeping.dfy`), what the audit log
  still tells (`InterleavedAudit.dfy`) and exactly when the last administrator is lost (`LastAdminRace.dfy`). Run with
  nothing in between, its steps are the service's transactions (`Composition.dfy`).

Beside them stand the **rate limiter** (`RateLimit.dfy`), the **PHC hash string** (`Base64.dfy`, `PasswordHash.dfy`), the
**folds of joined rows** (`JoinFolds.dfy`, `Directory.dfy`) and **keyset paging** (`Keyset.dfy`).

Inputs of the model: the outcome of purely syntactic validation (`ok`), the clock, the lifetime of a token, and in the
machines what the hasher says of a stored hash (`verdict`) and the hashes it produces, which `Service.Login`,
`Service.ChangePassword`, `Service.ResetPassword`, `Service.AcceptInvitation` and `Service.Register` compute with
`PasswordHash.dfy`. Argon2id is any deterministic function with the requested output length. Hashing a minted token is
injective, so a token and its digest are one number.

## Where the code and its comments part

- The comment on the last-administrator checks reads as if one were always left to work with. A holder always remains,
  an active one does not: SetUserRoles counts inactive holders too (`LastAdmin.CountsDiffer`), and a superuser may
  switch off the only active one. `LastAdmin.ActiveAdminKeptExactly` gives the exact condition.
- The comment on the counts says that counting in the transaction that writes keeps two requests from each removing one
  of the last two administrators. Transactions run at the database's default isolation, where each still sees the
  other's administrator: `LastAdminRace.CountsCanRace` is such a run. `LastAdminRace.HolderLostExactly` gives the exact
  step that loses the last holder, and `LastAdminRace.LockedAssignmentsKeepAHolder` the lock that excludes it.
- Demoting an administrator is called an admin-level act. A target made an administrator after their roles were read is
  demoted without one (`LastAdminRace.PromotedTargetIsStripped`); that is the only way
  (`Gatekeeping.UnprivilegedStripExactly`).
- An audit entry's "from" is what its transaction read. Over serial runs it is always what was there; interleaved, it is
  wrong exactly when that read was stale (`InterleavedAudit.InterleavedLogExplains`).
- The limiter's comment speaks of up to twice the limit across a window boundary; the bound that is reached is twice the
  limit less one (`RateLimit.RateBound`, `RateLimit.BurstAcrossTheBoundary`).
- A rehash replaces all three cost parameters, so replicas with incomparable configurations undo each other's upgrades
  (`PasswordHash.ParametersAlternateExactly`).

One condition matters only to somebody who changes a constant: both list handlers ask for 50 rows a page, and a page size
above 200 would end the walk after its first page (`Keyset.WalkCompleteExactly`).

## Model

| member | source | states |
|---|---|---|
| `Containment.AuthorityIsContained` | internal/identity/roles_service.go:44-288 | In every interleaved run driven only by a coalition of ordinary users and by accounts created in the run, with authority captured earlier and possibly stale: every role is as it was at the start or within what the coalition held then; so is everything assigned, minted or offered; no member becomes a superuser or gains a permission that was not held at the start |
| `Containment.ProgressWithin` | internal/server/middleware.go:41-141 | Every step that only reads, from authentication by session or key through requireAccess and requirePermission to the role reads, leaves its request carrying nothing beyond what the coalition held |
| `Containment.CommitWithin` | internal/identity/service.go:533-705 | Every commit, whatever stale authority it acts on, keeps roles, assignments, keys, invitations and accounts within the coalition's bounds and raises no role that was within them |
| `Containment.CreateApiKeyWithin` | internal/identity/apikeys_service.go:40-86 | A key minted under authority within the bounds is scoped within the bounds |
| `Containment.AccessWithin` | internal/identity/service.go:331-341 | The authority Authorize gives a member stays within what the coalition held |
| `Containment.ScopeWithin` | internal/identity/apikeys_repository.go:104-138 | The scope a member's live key carries stays within what the coalition held |
| `Composition.AssignmentIsItsSteps` | internal/identity/roles_service.go:196-262 | SetUserRoles equals resolving the roles, reading the target, counting administrators and writing with nothing in between: same tables, and the request is over exactly when the service answers Done; so what is proved of interleaved runs holds of the service |
| `Composition.InviteIsItsSteps` | internal/identity/service.go:533-595 | Invite, past validation, equals reading the role and writing with nothing in between |
| `Composition.UpdateIsItsSteps` | internal/identity/roles_service.go:98-150 | UpdateRole, past validation, equals reading the role and writing with nothing in between |
| `Composition.DeleteIsItsSteps` | internal/identity/roles_service.go:157-187 | DeleteRole equals reading the role and deleting it with nothing in between |
| `Composition.ResetIsItsSteps` | internal/identity/password_reset.go:139-183 | ResetPassword, past validation, equals claiming the link and spending it |
| `Composition.VerifyIsItsSteps` | internal/identity/email_verification.go:67-96 | VerifyEmail equals claiming the link and spending it |
| `Composition.AcceptIsItsSteps` | internal/identity/service.go:646-705 | AcceptInvitation, past validation, equals reading the offer, claiming it and spending it |
| `Granting.AssignmentAnswers` | internal/identity/roles_service.go:196-262 | An assignment succeeds exactly if every id is a role, each permission row of those roles is held by the caller, an administrator is touched only with admin authority and not as the last one, and the target exists; a missing role, then escalation, is reported for any target, and the number of administrators only to somebody with admin authority; a refusal changes nothing and a success gives exactly the roles asked for |
| `Granting.InviteAnswers` | internal/identity/service.go:533-578 | An invitation is issued exactly for an existing role whose permissions the caller holds and an address without an account |
| `Granting.CreateRoleAnswers` | internal/identity/roles_service.go:44-88 | A role is created exactly from catalogued permissions the caller holds under an unused key, and then grants exactly those |
| `Granting.CreateKeyAnswers` | internal/identity/apikeys_service.go:40-86 | A key is minted exactly from catalogued permissions the caller holds with an expiry still to come, and carries exactly those |
| `Granting.UpdateAnswers` | internal/identity/roles_service.go:98-150 | A custom role is rewritten exactly by a caller who holds both what it grants and what it will grant |
| `Granting.DeleteAnswers` | internal/identity/roles_service.go:157-187 | A deletion is refused, in this order, for no such role, a system role, more than the caller holds, and a role somebody holds; a refusal changes nothing |
| `Granting.NobodyGainsBeyondTheCaller` | internal/identity/roles_service.go:265-288 | Over any one step over HTTP no account gains a permission the caller did not hold, and a step that is no grant gives nobody anything |
| `Granting.AcceptedHoldsTheOffer` | internal/identity/service.go:677-691 | Whoever accepts an invitation can do exactly what the offered role grants |
| `ExactlyOnce.TokensAreSpentOnce` | internal/identity/repository.go:658-674 | Under any interleaving of any number of requests no invitation, reset or verification row is spent by two committed transactions, a spent row is never usable again, and invitations accepted in the run correspond one to one to accounts created with their address |
| `ExactlyOnce.ClaimIsExclusive` | internal/identity/repository.go:453-473 | A claiming UPDATE only gets a row that is unspent and that no other request holds |
| `ExactlyOnce.SpendingSpends` | internal/identity/service.go:646-705 | A committed spending leaves its row spent, spends nothing else that was not, and for an invitation creates a new account with the invited address |
| `ExactlyOnce.RolledBackStaysSpendable` | internal/database/postgres.go:69-88 | A request that rolls back leaves the tables as they were and its claimed row unspent and unclaimed, whichever kind of token it is |
| `ExactlyOnce.RivalGetsTheInvitation` | internal/identity/repository.go:658-674 | A rival cannot claim an invitation while another request holds it, and can once that request has rolled back |
| `AuditReplay.LogExplainsAuthority` | migrations/00001_init.sql:29-78 | Folding the append-only log from the seeded installation rebuilds exactly the accounts with their active and superuser flags, each role's key and permissions and each user's role keys, and every recorded "from" is what the entries before it say |
| `AuditReplay.StepRecorded` | internal/identity/roles_service.go:73-260 | One transaction's entry tells exactly what it did to accounts, roles and assignments, and nothing changes them without an entry |
| `InterleavedAudit.InterleavedLogExplains` | internal/audit/audit.go:222-269 | Over every interleaved run the log in commit order still folds to exactly the authority state, and a committed entry agrees with the fold before it if and only if what its transaction read still holds |
| `InterleavedAudit.CommitTold` | internal/identity/roles_service.go:97-260 | Each commit's entry accounts for what it wrote; its "from" is wrong exactly when the target's roles or the edited role's permissions changed after they were read |
| `AuditCoverage.EveryChangeIsRecorded` | internal/audit/audit.go:222-269 | Whatever changes the tables, sweeps and verification links apart, writes an entry under the caller's name about the row it was on; what writes none was refused and changed nothing, and only a failed login is refused and recorded |
| `AuditReplay.AcceptRecorded` | internal/identity/service.go:693-699 | The single invitation entry accounts for the new account and its role at once |
| `AuditReplay.AssignRecorded` | internal/identity/roles_service.go:251-260 | The from and to of a role assignment are the user's role keys before and after |
| `ServiceRuns.ServeFromSeed` | internal/audit/audit.go:222-269 | Whatever a fresh service object serves, the log it has written replays to the authority state in its tables |
| `ServiceRuns.Serve` | internal/identity/service.go:23-57 | Serving a sequence of commands leaves the object's tables and log exactly where the serial machine's run leaves them |
| `ServiceRuns.Execute` | internal/identity/service.go:23-57 | Each command served is one step of the serial machine: same tables, answer and audit entry |
| `LastAdmin.AnAdminAlwaysRemains` | internal/identity/roles_service.go:230-245 | Over serialised runs of HTTP and shell commands, superusers included, once somebody holds the admin role every later state has a holder |
| `LastAdmin.ActiveAdminKeptExactly` | internal/identity/service.go:375-389 | One step keeps an active administrator if and only if it is neither a superuser switching off the only active one nor an accepted assignment stripping them while an inactive holder still counts |
| `LastAdmin.DeactivationKeepsActiveHolder` | internal/identity/service.go:358-389 | A deactivation removes the last active administrator exactly when a superuser asks for it about somebody else |
| `LastAdmin.AnActiveAdminRemains` | internal/identity/roles_repository.go:300-332 | An active administrator persists over every run in which no step meets the stranding condition of the state it runs in |
| `LastAdmin.SparingRunsKeepAnActiveAdmin` | internal/identity/service.go:375-389 | Runs in which no superuser deactivates, and every assignment lists the admin role or is on no active administrator, keep an active administrator |
| `LastAdmin.CountsDiffer` | internal/identity/roles_repository.go:300-332 | The two counts differ: after two registrations, two grants from the shell and one deactivation the only active administrator may strip themselves, leaving a holder and no active one |
| `LastAdmin.AdminsAreMonotone` | internal/identity/roles_service.go:218-232 | Over runs whose assignments carry neither a superuser's authority nor the admin role, no administrator is lost, and over HTTP none has any role changed |
| `LastAdmin.AssignmentLeavesAdminsAlone` | internal/identity/roles_service.go:293-295 | Without genuine admin authority no assignment changes an administrator's roles, whatever permissions the caller holds |
| `LastAdminRace.HolderLostExactly` | internal/identity/roles_repository.go:293-314 | Over any step of any interleaving the last holder is lost if and only if an assignment that leaves out the admin role commits on the only holder |
| `LastAdminRace.LockedAssignmentsKeepAHolder` | internal/identity/roles_service.go:196-262 | Over every interleaved run in which no commit changes the holders while another assignment is between reading its target and writing, once somebody holds the admin role somebody does |
| `LastAdminRace.CountsCanRace` | internal/identity/roles_repository.go:293-314 | Without that lock the rule fails: from any state with exactly two administrators, both signed in, there is an interleaving in which each strips the other and nobody holds the admin role |
| `LastAdminRace.PromotedTargetIsStripped` | internal/identity/roles_service.go:212-245 | It also fails without any count: somebody without admin authority reads a target, the target is made an administrator, and the write takes the role away again |
| `Gatekeeping.EveryChangeIsAuthorized` | internal/server/middleware.go:41-141 | However requests interleave, a gated change commits only for a request whose session or key the tables accepted at an earlier step and to which, at a step in between, they gave the permission on its route, through the key's scope, the superuser flag or a role; if the target was an administrator when read, they gave it admin authority |
| `Gatekeeping.UnprivilegedStripExactly` | internal/identity/roles_service.go:218-232 | Over interleaved runs an assignment made without admin authority takes the admin role from somebody if and only if the target was no administrator when read, is one when written, and the role is not on the list |
| `Revocation.RevocationIsPermanent` | internal/identity/service.go:235-407 | After a committed logout, revocation by id, password change, password reset or deactivation no session it was to end authenticates in any later state, reactivation included |
| `Revocation.OldLinksStayDead` | internal/identity/password_reset.go:139-182 | No reset link issued before a completed reset, or before a newer link, is ever accepted again |
| `Revocation.OnlyTheseEndSessions` | internal/identity/repository.go:334-426 | Apart from sweeps no step touches an unrevoked session except those five, on the sessions they are meant for; a revocation by id only for the caller's own |
| `Revocation.EndedSessionsStayDeadInterleaved` | internal/server/middleware.go:41-80 | The same permanence under any interleaving, for a commit of any of the five |
| `Revocation.RevokedKeysStayDead` | internal/identity/apikeys_repository.go:81-138 | A revoked key is refused in every later state of every run |
| `Revocation.RevokedKeysStayDeadInterleaved` | internal/identity/apikeys_service.go:97-114 | However requests interleave, once a key's revocation has committed no request authenticates with it |
| `Revocation.OnlyRevocationEndsKeys` | internal/identity/apikeys_repository.go:81-96 | No step changes a key's row but the revocation of that key |
| `Credentials.SignsInExactly` | internal/identity/service.go:118-171 | A login issues a session exactly when some active account with that address has a stored hash the password verifies against |
| `Credentials.RefusalsLookAlike` | internal/identity/service.go:118-162 | Every refused login is answered alike and changes nothing; the entry tells which account and which of the five reasons |
| `Credentials.RequestsLookAlike` | internal/identity/password_reset.go:35-110 | Every reset request is answered alike; the entry tells what it found |
| `Credentials.RegisteredSignsIn` | internal/identity/service.go:70-98 | After a registration exactly the chosen password, or one deriving the same key, opens the new account; every other address is as it was |
| `Credentials.RedeemedSignsIn` | internal/identity/service.go:673-699 | The same for the account a claimed invitation creates, in the service and in the split machine |
| `Credentials.AcceptedSignsIn` | internal/identity/service.go:646-705 | After an accepted invitation exactly the chosen password opens the invited account |
| `Credentials.ChangedSignsIn` | internal/identity/service.go:276-316 | After a change exactly the new password opens the account, so the old one is out |
| `Credentials.FinishedResetSignsIn` | internal/identity/password_reset.go:155-182 | Spending a claimed reset link makes exactly the new password open its account, in the service and in the split machine |
| `Credentials.ResetSignsIn` | internal/identity/password_reset.go:139-183 | After a completed reset exactly the new password opens the account the link belongs to |
| `Credentials.ResetAnswers` | internal/identity/repository.go:453-473 | A reset succeeds exactly for an unspent, unexpired link, overwrites the hash of its account and no other column of any, and changes nothing when refused |
| `Credentials.AcceptanceAnswers` | internal/identity/service.go:646-705 | An acceptance succeeds exactly for an open, unexpired invitation to an address without an account, and creates that account, verified, with the offered role |
| `Credentials.VerificationAnswers` | internal/identity/email_verification.go:67-96 | A verification succeeds exactly for an unspent, unexpired link to what is still the account's address, and marks exactly that account |
| `Credentials.StepKeepsPassword` | internal/identity/service.go:276-316 | Accounts keep their address, and their hash changes only through a verified change, a live reset link or a verified login that upgrades it |
| `Credentials.PasswordKeepsWorking` | internal/identity/service.go:118-171 | Over every run that neither changes nor resets it nor switches the account off, a password keeps opening its account, however often the hash is upgraded |
| `Lifecycles.SessionLifetime` | internal/identity/repository.go:245-329 | The token a login hands out signs its own account in until the lifetime is over, and a due upgrade is stored |
| `Lifecycles.KeyLifetime` | internal/identity/apikeys_repository.go:21-138 | A minted key stands for its owner, while active, with exactly the scope asked for, until it expires |
| `Lifecycles.InvitationLifetime` | internal/identity/service.go:566-673 | An issued invitation names its address and inviter and can be accepted exactly until it expires |
| `Lifecycles.ResetLinkLifetime` | internal/identity/password_reset.go:35-110 | A reset request issues a link exactly for an active account with a password, good exactly until it expires |
| `Lifecycles.VerificationLifetime` | internal/identity/email_verification.go:31-96 | A sent link verifies exactly its account, exactly until it expires; a verified account is sent none |
| `Lifecycles.WithdrawnInvitationsStayClosed` | internal/identity/service.go:622-637 | A withdrawn or replaced invitation is refused in every later state |
| `Lifecycles.SwitchAnswers` | internal/identity/service.go:358-389 | Switching off is refused exactly to oneself and, but for superusers, for an administrator, even an inactive one, while no two active ones are left |
| `Lifecycles.SwitchedOffIsShutOut` | internal/identity/service.go:390-407 | Once an account is switched off no session, key or password gets anybody in as it |
| `Lifecycles.SwitchedOnWorksAgain` | internal/identity/apikeys_repository.go:104-138 | Switched on again, exactly its unrevoked and unexpired keys work, and no ended session does |
| `Lifecycles.SuperuserSwitched` | internal/identity/service.go:430-462 | The flag of exactly the account with that address is set, and with it the catalog or what its roles grant |
| `Lifecycles.GrantedFromTheShell` | internal/identity/service.go:472-507 | A grant from the shell adds exactly the role's permissions to what the account could do |
| `Pruning.SweepsAreUnobservable` | internal/identity/repository.go:391-407 | Retention sweeps with a non-negative retention inserted anywhere in a run change no answer of the run other than those of revoking one session by id |
| `Pruning.PruneShadowed` | internal/identity/repository.go:492-505 | A sweep only drops rows that no later authentication, listing or consumption could have used |
| `Pruning.SweepUnseenExactly` | internal/identity/repository.go:391-407 | One sweep leaves what every token finds as it was if and only if no usable session, reset or verification expires before the retention line; a retention that is not negative guarantees it |
| `LiveLinks.OneLiveLink` | migrations/00001_init.sql:476 | Over serialised runs at most one open invitation per address, one unspent reset and one unspent verification per user |
| `LiveLinks.InviteNeverCollides` | internal/identity/service.go:566-578 | Re-inviting fails as taken exactly when the address has an account: the partial unique index is never hit, even by an expired invitation |
| `LiveLinks.InviteReplacesOlder` | internal/identity/repository.go:696-706 | An issued invitation is open, offers the requested role, and every older one for the address is closed |
| `LiveLinks.SendReplacesOlder` | internal/identity/email_verification.go:45-50 | Of a user's verifications only the newest is unspent after a new one is sent |
| `RoleStructure.StructureHoldsForever` | migrations/00001_init.sql:393-666 | In every reachable state the system roles keep key and permissions and stay the only system roles, role keys are unique, and no grant, assignment or invitation dangles |
| `RoleStructure.RoleIdsAreStable` | internal/identity/roles_repository.go:130-203 | Over every run a role id keeps its key and kind and is never reused |
| `RoleStructure.DeleteRoleSucceeds` | internal/identity/roles_service.go:157-187 | A deletion succeeds exactly when the role is custom, held by nobody and within the caller's authority |
| `RoleStructure.DeleteRoleStripsNobody` | migrations/00001_init.sql:581-631 | A successful deletion leaves every user's roles and effective permissions unchanged and removes exactly the invitations that offered the role |
| `RoleStructure.UpdateRoleReachesHolders` | internal/identity/roles_repository.go:208-229 | After an edit exactly the role's holders have the new set in place of the old |
| `RoleStructure.EffectiveIff` | internal/identity/models.go:195-203 | A user can do exactly what some role they hold grants |
| `Constraints.RunConsistent` | migrations/00001_init.sql:287-631 | Unique indexes, foreign keys and the rules the services add hold in every state of every run |
| `Identity.Service.CheckEscalation` | internal/identity/roles_service.go:277-288 | Allows a grant exactly when the caller holds every permission in it |
| `Identity.Service.Register` | internal/identity/service.go:70-111 | Creates the account with its audit entry and then sends the verification link, or fails as taken and changes nothing |
| `Identity.Service.CreateAccount` | internal/identity/service.go:82-98 | The transaction of a registration: account and entry together, or neither |
| `Identity.Service.Login` | internal/identity/service.go:118-199 | Signs in exactly for an active account whose stored hash the password verifies against, upgrading the hash if that is due and can be stored |
| `Identity.Service.SignIn` | internal/identity/service.go:121-197 | Refuses unknown, passwordless, deactivated and mismatched logins alike, each with its own audit reason; otherwise stores the upgrade and opens one session |
| `Identity.Service.OpenSession` | internal/identity/service.go:164-197 | Stores a due upgrade and opens one session with its entry |
| `Identity.Service.WhyRefused` | internal/identity/service.go:137-162 | The audit reason of a refused login is the first check that fails |
| `Identity.Service.Logout` | internal/identity/service.go:235-247 | Ends the session behind the token and records it, always successfully |
| `Identity.Service.RevokeSession` | internal/identity/service.go:258-270 | Ends one unrevoked session of the caller, and only of the caller |
| `Identity.Service.ChangePassword` | internal/identity/service.go:276-316 | Succeeds exactly if the account's stored hash verifies the current password, and then replaces that hash; anything else changes nothing |
| `Identity.Service.ReplacePassword` | internal/identity/service.go:297-315 | Replaces the hash and ends every session of the user together, recording how many |
| `Identity.Service.Authorize` | internal/identity/service.go:331-341 | A superuser gets the catalog and no roles, anyone else their roles and their union |
| `Identity.Service.IsLastActiveAdmin` | internal/identity/service.go:375-389 | Says whether the target is an administrator and at most one active one is left |
| `Identity.Service.SetUserActive` | internal/identity/service.go:358-421 | Switches the account, ending its sessions on deactivation, unless it is the caller's own or the last active administrator's |
| `Identity.Service.SetSuperuser` | internal/identity/service.go:430-462 | Sets the flag of the account with this address and records it |
| `Identity.Service.GrantRoleByKey` | internal/identity/service.go:472-507 | Adds the role to what the user holds, without the escalation guard |
| `Identity.Service.Invite` | internal/identity/service.go:533-614 | Checks role, authority and address, then replaces any open invitation for the address, or changes nothing |
| `Identity.Service.Issue` | internal/identity/service.go:566-595 | The transaction of an invitation: old ones are withdrawn only if the new one is stored |
| `Identity.Service.RevokeInvitation` | internal/identity/service.go:622-637 | Withdraws an open invitation and records it |
| `Identity.Service.AcceptInvitation` | internal/identity/service.go:646-705 | Succeeds exactly for an open, unexpired invitation to a free address, and creates the verified account with the chosen password and the offered role; anything else changes nothing |
| `Identity.Service.TakeUp` | internal/identity/service.go:660-699 | The transaction of an acceptance |
| `Identity.Service.Redeem` | internal/identity/service.go:673-699 | Claims the row and creates the account, or neither |
| `Identity.Service.Enrol` | internal/identity/service.go:677-691 | Creates the account, assigns the role and marks the address verified |
| `Identity.Service.CreateRole` | internal/identity/roles_service.go:44-88 | Creates a custom role with exactly the requested catalogued permissions, all held by the caller, under an unused key |
| `Identity.Service.UpdateRole` | internal/identity/roles_service.go:98-150 | Renames a custom role and replaces its permissions, if the caller holds both the old and the new ones |
| `Identity.Service.DeleteRole` | internal/identity/roles_service.go:157-187 | Deletes a custom, unused role whose permissions the caller holds |
| `Identity.Service.SetUserRoles` | internal/identity/roles_service.go:196-262 | Answers Done only when the caller holds every permission row of the roles assigned; reports a missing role, then escalation; gives the target exactly those roles or changes nothing |
| `Identity.Service.ReplaceRoles` | internal/identity/roles_service.go:199-260 | The transaction: the guards in the order the code runs them, then the replacement or a rollback |
| `Identity.Service.GuardAdmins` | internal/identity/roles_service.go:230-245 | First who may touch an administrator, then whether one would remain |
| `Identity.Service.Assign` | internal/identity/roles_repository.go:256-272 | Deletes and reinserts the assignments and records both role key sets, or rolls back |
| `Identity.Service.ValidateKey` | internal/identity/apikeys_service.go:143-166 | Accepts exactly a non-empty list of catalogued permissions with an expiry that is still to come |
| `Identity.Service.CreateApiKey` | internal/identity/apikeys_service.go:40-86 | Mints a key of the caller with exactly the requested scope, held by the caller |
| `Identity.Service.RevokeApiKey` | internal/identity/apikeys_service.go:97-114 | Revokes an unrevoked key and records its name |
| `Identity.Service.RequestPasswordReset` | internal/identity/password_reset.go:35-110 | Always answers the same; only an active account with a password gets a new link, which spends the older ones |
| `Identity.Service.ResetPassword` | internal/identity/password_reset.go:139-183 | Succeeds exactly for a live link, and then the stored hash of its account is that of the new password and no other column of any account has changed; anything else changes nothing |
| `Identity.Service.SpendLink` | internal/identity/password_reset.go:149-182 | The transaction: consumes the token, replaces the hash, ends every session and spends every other link, or rolls back whole |
| `Identity.Service.Overwrite` | internal/identity/password_reset.go:155-182 | What follows the consumption of a token, rolled back when the account is missing |
| `Identity.Service.SendVerification` | internal/identity/email_verification.go:31-64 | An account handed in as unverified gets a new link to the address it was handed in with, which spends the older ones; a missing account changes nothing |
| `Identity.Service.VerifyEmail` | internal/identity/email_verification.go:67-96 | Consumes the token and marks the address verified if it is still the account's, or rolls back |
| `Identity.Service.Confirm` | internal/identity/email_verification.go:79-92 | What follows the consumption of a token, rolled back when the address is no longer the account's |
| `Identity.Service.Cleanup` | internal/identity/repository.go:391-407 | One tick of the three retention sweeps: a row stays exactly while neither its end nor its expiry lies before the line |
| `Store.Repository.Rollback` | internal/database/postgres.go:69-88 | Restores every table and the log |
| `Store.Repository.Record` | internal/audit/audit.go:222-269 | Appends one entry and changes nothing else |
| `Store.Repository.CreateUser` | internal/identity/repository.go:55-77 | Inserts an active ordinary account, or fails on the unique address |
| `Store.Repository.GetUserByEmail` | internal/identity/repository.go:80-83 | Finds the one account with this address |
| `Store.Repository.SetSuperuser` | internal/identity/repository.go:95-103 | Sets the flag of the account with this address, and of no other |
| `Store.Repository.SetUserActive` | internal/identity/repository.go:110-118 | Switches exactly this account |
| `Store.Repository.UpdateUserPassword` | internal/identity/repository.go:123-135 | Replaces the hash of exactly this account |
| `Store.Repository.MarkEmailVerified` | internal/identity/repository.go:861-878 | Marks the account verified only while it still has this address |
| `Store.Repository.CreateSession` | internal/identity/repository.go:245-266 | Stores one live session under a fresh token |
| `Store.Repository.AuthenticateSession` | internal/identity/repository.go:278-329 | Accepts exactly a session with this token that is unrevoked, unexpired and of an active account, and refuses everything else alike |
| `Store.Repository.RevokeSession` | internal/identity/repository.go:334-344 | Ends the session with this token and leaves revocation times of others alone |
| `Store.Repository.RevokeUserSessions` | internal/identity/repository.go:349-359 | Ends exactly the unrevoked sessions of the user and counts them |
| `Store.Repository.ListUserSessions` | internal/identity/repository.go:364-389 | Returns the user's live sessions and no others, each once, newest first |
| `Store.Repository.RevokeSessionById` | internal/identity/repository.go:413-426 | Ends the session only if it is this user's and unrevoked |
| `Store.Repository.CreatePasswordReset` | internal/identity/repository.go:432-445 | Stores one unspent reset under a fresh token |
| `Store.Repository.ConsumePasswordReset` | internal/identity/repository.go:453-473 | Checks and claims the token in one statement |
| `Store.Repository.InvalidatePasswordResets` | internal/identity/repository.go:480-490 | Spends exactly the user's unspent resets |
| `Store.Repository.CreateEmailVerification` | internal/identity/repository.go:818-830 | Stores one unspent verification for this address |
| `Store.Repository.ConsumeEmailVerification` | internal/identity/repository.go:836-854 | Checks and claims the token in one statement |
| `Store.Repository.InvalidateEmailVerifications` | internal/identity/repository.go:882-892 | Spends exactly the user's unspent verifications |
| `Store.Repository.DeleteDeadSessions` | internal/identity/repository.go:394-407 | Removes exactly the sessions expired or revoked longer ago than the retention |
| `Store.Repository.DeleteDeadPasswordResets` | internal/identity/repository.go:494-505 | Removes exactly the resets expired or spent longer ago than the retention |
| `Store.Repository.DeleteDeadEmailVerifications` | internal/identity/repository.go:895-906 | Removes exactly the verifications expired or spent longer ago than the retention |
| `Store.Repository.CreateInvitation` | internal/identity/repository.go:522-547 | Inserts an open invitation, or fails on the partial unique index or a foreign key |
| `Store.Repository.GetInvitationByTokenHash` | internal/identity/repository.go:570-587 | Finds the invitation with this token, spent or not, with its role |
| `Store.Repository.AcceptInvitation` | internal/identity/repository.go:658-674 | Marks the invitation accepted only if it is still pending at that moment |
| `Store.Repository.RevokeInvitation` | internal/identity/repository.go:677-690 | Withdraws the invitation only if it is open |
| `Store.Repository.RevokePendingInvitationFor` | internal/identity/repository.go:696-706 | Withdraws exactly the open invitations for the address, expired ones included |
| `Store.Repository.GetRole` | internal/identity/roles_repository.go:39-60 | Folding the joined rows of one id gives the role with exactly its permissions, or nothing when there is no such role |
| `Store.Repository.GetRoleByKey` | internal/identity/roles_repository.go:64-85 | Finds the one role with this key |
| `Store.Repository.GetRolesByIds` | internal/identity/roles_repository.go:92-125 | Succeeds exactly when every distinct requested id exists, with exactly those roles |
| `Store.Repository.ReplaceRolePermissions` | internal/identity/roles_repository.go:208-229 | The role's permissions become exactly the given set; other roles keep theirs |
| `Store.Repository.CreateRole` | internal/identity/roles_repository.go:130-151 | Inserts a custom role with exactly these permissions, or fails on the unique key |
| `Store.Repository.UpdateRole` | internal/identity/roles_repository.go:157-181 | Renames a custom role and replaces its permissions; never touches a system role |
| `Store.Repository.DeleteRole` | internal/identity/roles_repository.go:188-203 | Deletes a custom role nobody holds, with its grants and the invitations offering it |
| `Store.Repository.LoadUserRoles` | internal/identity/roles_repository.go:236-252 | Folding the joined rows of the user's assignments gives exactly the roles held, with their permissions |
| `Store.Repository.SetUserRoles` | internal/identity/roles_repository.go:256-272 | Replaces the user's assignments, failing when the user or a role is missing |
| `Store.Repository.AddUserRole` | internal/identity/roles_repository.go:281-291 | Adds one assignment; adding it again changes nothing |
| `Store.Repository.CountUsersWithRole` | internal/identity/roles_repository.go:300-314 | Scanning the assignments counts each holder of the system role once |
| `Store.Repository.CountActiveUsersWithRole` | internal/identity/roles_repository.go:318-332 | Scanning the assignments counts each holder whose account is active once |
| `Store.Repository.CreateApiKey` | internal/identity/apikeys_repository.go:21-57 | Stores the key and exactly its scope, or fails when the owner is missing |
| `Store.Repository.RevokeApiKey` | internal/identity/apikeys_repository.go:81-96 | Revokes the key only if it is not revoked yet |
| `Store.Repository.AuthenticateApiKey` | internal/identity/apikeys_repository.go:104-138 | Accepts exactly a key with this token that is unrevoked, unexpired and owned by an active account, with its frozen scope |
| `Store.NoneMissing` | internal/identity/roles_repository.go:114-124 | Comparing the number of requested ids that exist with the number of distinct ids asked for tells exactly whether one is missing |
| `Permissions.Superset` | internal/identity/permissions.go:155-162 | The loop answers whether one permission set contains another |
| `Permissions.CollectPermissions` | internal/identity/models.go:195-203 | The loop gathers exactly the union of the roles' permissions |
| `Permissions.FindRole` | internal/identity/models.go:206-213 | The loop finds a system role by key |
| `Permissions.ValidatePermissions` | internal/identity/roles_service.go:304-331 | Accepts exactly the non-empty lists of catalogued permissions and returns their set |
| `RateLimit.Limiter.Allow` | internal/server/ratelimit.go:65-82 | Admits and counts as a fixed window that is still in force at its last instant; a refusal says how long remains |
| `RateLimit.Limiter.Reap` | internal/server/ratelimit.go:89-100 | Removes exactly the expired buckets |
| `RateLimit.Limiter.Guard` | internal/server/ratelimit.go:120-152 | A refusal names the first non-empty key whose window in force is used up; coming back after the advertised seconds while nobody else tries it gets in, and a second less is not more than the wait left |
| `RateLimit.RefusalIsExact` | internal/server/ratelimit.go:128-148 | The same for the guard's decision over any number of keys |
| `RateLimit.ReapingIsInvisible` | internal/server/ratelimit.go:65-100 | For every interleaving of attempts and sweeps at times that do not go back, every attempt is answered as by a limiter that never reaps |
| `RateLimit.SweptMapIsRecent` | internal/server/ratelimit.go:84-100 | After a sweep the map holds only keys attempted within the last window |
| `RateLimit.RateBound` | internal/server/ratelimit.go:36-40 | In any closed interval no longer than k - 1 windows a key is admitted at most k times the limit, less one from k = 2 on; in one window at most twice the limit less one |
| `RateLimit.BurstAcrossTheBoundary` | internal/server/ratelimit.go:38-40 | Under every valid configuration an ordered run reaches the one-window bound |
| `RateLimit.HandledBound` | internal/server/ratelimit.go:120-181 | The same bounds hold for requests reaching the handler, on each of their keys, however their attempts interleave |
| `RateLimit.GuardIsItsTurns` | internal/server/ratelimit.go:128-148 | A request passes exactly when every attempt it makes is admitted, and then it has made one on each non-empty key |
| `RateLimit.RetryAfterSuffices` | internal/server/ratelimit.go:138-141 | Waiting the advertised time with no other attempt on the key gets in, and the advertised time is less than a second too long |
| `PasswordHash.DecodeUndoesPrint` | internal/auth/password.go:57-142 | decodeHash returns exactly the parameters, salt and key that were printed, for all parameter values, any salt and any non-empty key |
| `PasswordHash.EmptyKeyRejected` | internal/auth/password.go:138-140 | A printed hash with an empty key is refused for that reason |
| `PasswordHash.SplitPrinted` | internal/auth/password.go:114-118 | The printed string splits into exactly six fields, the first one empty |
| `PasswordHash.PrintsAsDocumented` | internal/auth/password.go:46-70 | With the documented parameters the string reads as documented for every salt and key |
| `PasswordHash.ParametersScan` | internal/auth/password.go:128-130 | Scanning the parameter field returns the three printed numbers |
| `PasswordHash.ScanUnsignedDecimal` | internal/auth/password.go:128-130 | Scanning a printed number in range returns it and stops at the first other character |
| `PasswordHash.AnyHasherVerifiesAnother` | internal/auth/password.go:80-94 | A hash verifies the password it was made from under any other parameters, and another password only if it derives the same key |
| `PasswordHash.RehashIff` | internal/auth/password.go:100-109 | A stored hash is due for an upgrade exactly when some parameter is above those it was written with |
| `PasswordHash.PasswordSurvivesUpgrades` | internal/identity/service.go:148-171 | Over any sequence of logins under any parameters, upgrades written or not, the stored hash keeps verifying the same password and is due for an upgrade exactly when a parameter is above those of its last writer |
| `PasswordHash.ParametersAlternateExactly` | internal/auth/password.go:96-109 | Two configurations find each other's hashes due again if and only if neither covers the other, and then every login rewrites the other's hash |
| `Base64.RoundTrip` | internal/auth/password.go:132-137 | Every byte string survives encoding and strict decoding |
| `Base64.StandardAlphabet` | internal/auth/password.go:68-69 | The 64 symbols are the standard ones in order, checked on two of the strings the tests use |
| `Base64.StrictIsCanonical` | internal/auth/password.go:132-137 | Line breaks aside, text that decodes strictly is exactly what encoding prints |
| `JoinFolds.Collect` | internal/identity/roles_repository.go:341-375 | The fold yields one parent per distinct id in order of first appearance with the permissions its rows carry |
| `JoinFolds.CollectJoin` | internal/identity/apikeys_repository.go:163-197 | On the rows of a LEFT JOIN, in any order, the fold returns every parent exactly once with its own columns and exactly its permissions, empty sets included |
| `JoinFolds.GrantedIsExact` | internal/identity/repository.go:591-634 | The permissions gathered for a parent are exactly those it joins with |
| `JoinFolds.LeftJoin` | internal/identity/roles_repository.go:41-44 | The rows produced for the fold are a LEFT JOIN: one per permission, and one with NULL for a parent that has none |
| `JoinFolds.QueryRoles` | internal/identity/roles_repository.go:341-375 | Joining and folding the roles with given ids lists each existing one once, with exactly its permissions |
| `Directory.ListUsers` | internal/identity/repository.go:146-239 | Returns the first users below the cursor in descending id, each with exactly their roles in display order and exactly what those grant |
| `Directory.Fold` | internal/identity/repository.go:177-226 | Stopping at the first user that does not fit loses no row of a user on the page |
| `Directory.GatheredExactly` | internal/identity/repository.go:198-225 | What is gathered about a user on the page is their row, their roles and their permissions, no more and no less |
| `Directory.SortRoles` | internal/identity/roles_repository.go:381-388 | No custom role before a system role, and within each kind ascending keys, whatever order the map is walked in |
| `Directory.SortedIsUnique` | internal/identity/roles_repository.go:377-388 | The display order determines the list |
| `Directory.ShownPermissions` | internal/identity/service.go:331-341 | The permissions shown are those Authorize computes exactly when the user is no superuser or their roles grant the whole catalog |
| `Keyset.PageIsUnique` | internal/identity/repository.go:147-168 | A page is determined: the newest rows below the cursor, all of them unless it is full |
| `Keyset.SortDescending` | internal/identity/repository.go:369 | Lists a set of ids once each, newest first |
| `Keyset.WalkCollectsTheStart` | internal/server/handlers.go:163-181 | Following next_before ends and collects exactly the rows present at the start, each once, newest first, while rows keep arriving |
| `Keyset.AuditWalkCollectsTheStart` | internal/audit/audit.go:292-339 | The same for the filtered audit log: exactly the matching entries of the start |
| `Keyset.WalkCompleteExactly` | internal/audit/audit.go:293-296 | For any positive page size the walk collects exactly the start if and only if the size is at most 200 or the table has at most 50 rows |

## Left out

- LastAdmin.AnAdminAlwaysRemains: proved for serialised transactions; for interleaved ones LastAdminRace states exactly
  when it fails. The rules on active administrators are proved for serialised transactions only.
- LiveLinks.OneLiveLink: proved for serialised transactions, because invalidating and inserting are two statements.
- Isolation inside one transaction of the split-step machine: statements that write are grouped into one commit per
  transaction, and the reads that matter for authority, tokens and the administrator count are separate steps.
  CreateRole, CreateAPIKey, SetUserActive and the two revocations commit in one step there. Deadlocks and failed
  commits are a request giving up.
- Identity.Service.Login: does not model a failure to write the audit entry of a refused login, nor an error of the
  database while the account is read.
- Store.Repository.Record: does not model the request id, address, user agent and API key that the code attaches to an
  entry.
- Identity.Service.SetUserRoles: the roles, permissions and ids involved are sets, so the order of metadata lists is not
  modelled.
- PasswordHash.AnyHasherVerifiesAnother: does not model the panic of Argon2 for zero iterations or zero parallelism,
  nor timing.
- Store.Repository.AuthenticateSession: does not model the throttled refresh of last_used_at, which no rule reads.
- Store.Repository.AuthenticateApiKey: does not model that refresh either.
- Hard deletion of users, and the cascades it triggers; audit_log.Purge; truncation of the log: runs for audit replay
  contain none of them.
- First and last names, user agents, IP addresses, creation times, the display prefix of an API key, and the request
  metadata of audit entries.
- Email grammar and normalisation, the role-key pattern, name and password lengths: one boolean outcome per call.
- Missing, Slice, MarshalJSON and SyncPermissions: sorted output and start-up synchronisation of the catalog.
- Sending mail, and what follows a failed send.
- The parse-then-print direction of the hash string: Sscanf ignores trailing text and the decoder skips line breaks, so
  it is not an identity.
- The rounding of Duration.Seconds in Retry-After: whole nanoseconds are divided exactly.
- The limiter's clock is read before its lock is taken; calls are modelled in lock order at times that do not go back.
- HTTP routing, status codes, JSON, settings, logging and migrations as a mechanism.
