/** An optional value: a nullable column, or a lookup that may find nothing. */
module Options {
  datatype Option<+T> = None | Some(value: T)
}

/** The rows and claims the authentication code works on. */
module AuthEntities {
  import opened Options

  // UUIDs, user names, password digests and refresh-token digests: only their
  // equality matters.  NO_ID stands for the empty string.
  type Id = nat
  const NO_ID: Id := 0

  datatype Role = Admin | Operator | Readonly

  // `Expired` is never stored; it is only computed while checking a session.
  datatype Status = Active | Rotated | Revoked | Expired

  datatype Reason = NoReason | LoggedOut | RefreshReuse | PasswordChanged | SecurityChanged | UserDisabled

  // `deleted` is the soft-delete mark: every query but the primary-key index ignores deleted rows.
  datatype User = User(
    username: Id, password: Id, email: Id, role: Role,
    isActive: bool, isFirstLogin: bool, tokenVersion: int, deleted: bool)

  datatype Session = Session(
    userId: Id, refreshHash: Id, status: Status, tokenVersion: int, familyId: Id,
    replacedBy: Option<Id>, lastUsedAt: Option<int>, expiresAt: int, idleExpiresAt: Option<int>,
    revokedAt: Option<int>, revokeReason: Reason)

  // The payload of a signed access token.  Tokens cannot be forged, so a token is its payload.
  datatype Claims = Claims(userId: Id, sessionId: Id, username: Id, role: Role, tokenVersion: int)

  type Users = map<Id, User>
  type Sessions = map<Id, Session>

  predicate IsUsable(s: Session, now: int) {
    && s.status == Active
    && now < s.expiresAt
    && (s.idleExpiresAt.Some? ==> now < s.idleExpiresAt.value)
  }

  // The order in which a stored status may advance.
  function Rank(s: Status): nat {
    match s
    case Active => 0
    case Rotated => 1
    case Revoked => 2
    case Expired => 3
  }

  // The row Login and Refresh write for a new session.
  function NewSession(uid: Id, hash: Id, version: int, family: Id, now: int, ttl: int): Session {
    Session(uid, hash, Active, version, family, None, Some(now), now + ttl, None, None, NoReason)
  }

  // The columns of a session that no statement ever updates.
  predicate SameIdentity(a: Session, b: Session) {
    && a.userId == b.userId
    && a.refreshHash == b.refreshHash
    && a.tokenVersion == b.tokenVersion
    && a.familyId == b.familyId
    && a.expiresAt == b.expiresAt
    && a.idleExpiresAt == b.idleExpiresAt
  }
}
