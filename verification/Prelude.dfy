/** Small shared datatypes. */
module Prelude {
  datatype Option<+T> = None | Some(value: T)

  /** The sentinel errors of the identity service, plus `Internal` for a raw database failure. */
  datatype Error =
    | Validation
    | NotFound
    | Forbidden
    | Escalation
    | LastAdmin
    | SystemRole
    | RoleInUse
    | RoleKeyTaken
    | EmailTaken
    | InvalidCredentials
    | Unauthenticated
    | InvitationInvalid
    | InvalidToken
    | Internal

  /** Points in time, in an arbitrary unit. */
  type Time = int

  /** Row ids. They are version 7 UUIDs, so later rows have larger ids. */
  type Id = nat

  /** The digest of a minted token. Minted tokens are fresh and hashing is injective on them. */
  type Digest = nat
}
