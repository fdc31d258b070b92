/** What each repository call does to the rows it touches.  One call, or one transaction, is one atomic step. */
module RowUpdates {
  import opened Options
  import opened AuthEntities

  function FindUser(rows: Users, uid: Id): Option<User> {
    if uid in rows && !rows[uid].deleted then Some(rows[uid]) else None
  }

  // The answers a lookup by user name, or by refresh-token digest, may give.
  ghost predicate FoundByName(rows: Users, name: Id, found: Option<Id>) {
    match found
    case Some(uid) => uid in rows && !rows[uid].deleted && rows[uid].username == name
    case None => forall uid | uid in rows && !rows[uid].deleted :: rows[uid].username != name
  }

  ghost predicate FoundByHash(rows: Sessions, hash: Id, found: Option<Id>) {
    match found
    case Some(sid) => sid in rows && rows[sid].refreshHash == hash
    case None => forall sid | sid in rows :: rows[sid].refreshHash != hash
  }

  // A live row answers the duplicate check, a deleted row the unique index; either way nothing is written.
  predicate EmailTaken(rows: Users, email: Id) {
    exists uid | uid in rows :: rows[uid].email == email
  }

  predicate HashTaken(rows: Sessions, hash: Id) {
    exists sid | sid in rows :: rows[sid].refreshHash == hash
  }

  // The three version bumps.  Each is one transaction; on a missing or deleted user (ErrNotFound) it writes nothing.
  function BumpTokenVersion(rows: Users, uid: Id): (Users, bool) {
    var ok := FindUser(rows, uid).Some?;
    (if ok then rows[uid := rows[uid].(tokenVersion := rows[uid].tokenVersion + 1)] else rows, ok)
  }

  function UpdatePasswordAndBump(rows: Users, uid: Id, password: Id): (Users, bool) {
    var ok := FindUser(rows, uid).Some?;
    (if ok then rows[uid := rows[uid].(password := password, isFirstLogin := false,
                                       tokenVersion := rows[uid].tokenVersion + 1)] else rows, ok)
  }

  function UpdateAndBump(rows: Users, uid: Id, email: Id, role: Role, isActive: bool): (Users, bool) {
    var ok := FindUser(rows, uid).Some?;
    (if ok then rows[uid := rows[uid].(email := email, role := role, isActive := isActive,
                                       tokenVersion := rows[uid].tokenVersion + 1)] else rows, ok)
  }

  // A violated unique index: the insert writes nothing.
  predicate Conflicts(rows: Sessions, sid: Id, r: Session) {
    sid in rows || HashTaken(rows, r.refreshHash)
  }

  function CreateSession(rows: Sessions, sid: Id, r: Session): (Sessions, bool) {
    var ok := !Conflicts(rows, sid, r);
    (if ok then rows[sid := r] else rows, ok)
  }

  datatype RotateOutcome = Done | Lost | Failed

  // The row a successful rotation leaves behind.
  function RotatedRow(r: Session, newId: Id, at: int): Session {
    r.(status := Rotated, replacedBy := Some(newId), lastUsedAt := Some(at))
  }

  predicate IsCurrent(rows: Sessions, sid: Id, hash: Id) {
    sid in rows && rows[sid].refreshHash == hash && rows[sid].status == Active
  }

  // Conditional update and insert in one transaction; a failed insert undoes the update.
  function Rotate(rows: Sessions, sid: Id, hash: Id, newId: Id, replacement: Session, at: int)
    : (Sessions, RotateOutcome)
  {
    var marked := if sid in rows then rows[sid := RotatedRow(rows[sid], newId, at)] else rows;
    var outcome :=
      if !IsCurrent(rows, sid, hash) then Lost else if Conflicts(marked, newId, replacement) then Failed else Done;
    (if outcome == Done then marked[newId := replacement] else rows, outcome)
  }

  function Revoke(s: Session, reason: Reason, at: int): Session {
    s.(status := Revoked, revokedAt := Some(at), revokeReason := reason)
  }

  function MarkReuseDetected(rows: Sessions, sid: Id, at: int): (Sessions, bool) {
    var marked := sid in rows && rows[sid].status == Rotated;
    (if marked then rows[sid := Revoke(rows[sid], RefreshReuse, at)] else rows, marked)
  }

  function RevokeById(rows: Sessions, sid: Id, reason: Reason, at: int): (Sessions, bool) {
    (if sid in rows then rows[sid := Revoke(rows[sid], reason, at)] else rows, sid in rows)
  }

  function ActiveOf(rows: Sessions, uid: Id): set<Id> {
    set sid | sid in rows && rows[sid].userId == uid && rows[sid].status == Active
  }

  function RevokeByUserId(rows: Sessions, uid: Id, reason: Reason, at: int): Sessions {
    map sid | sid in rows :: if sid in ActiveOf(rows, uid) then Revoke(rows[sid], reason, at) else rows[sid]
  }

  // ---------- decisions taken on rows that were read ----------

  function ClaimsFor(uid: Id, sid: Id, u: User): Claims {
    Claims(uid, sid, u.username, u.role, u.tokenVersion)
  }

  predicate LoginAccepted(users: Users, found: Option<Id>, password: Id)
    requires found.Some? ==> found.value in users
  {
    found.Some? && users[found.value].isActive && users[found.value].password == password
  }

  predicate RefreshAllowed(users: Users, seen: Session) {
    && FindUser(users, seen.userId).Some?
    && users[seen.userId].isActive && users[seen.userId].tokenVersion == seen.tokenVersion
  }

  predicate VersionMatches(users: Users, c: Claims) {
    FindUser(users, c.userId).Some? && users[c.userId].tokenVersion == c.tokenVersion
  }

  predicate StatusMatches(rows: Sessions, c: Claims, now: int) {
    c.sessionId in rows && IsUsable(rows[c.sessionId], now)
  }

  // The row a user update writes, from the row it read.
  function Edited(u: User, email: Option<Id>, role: Option<Role>, isActive: Option<bool>): User {
    u.(email := if email.Some? then email.value else u.email,
       role := if role.Some? then role.value else u.role,
       isActive := if isActive.Some? then isActive.value else u.isActive)
  }

  // A change of role, or a switch from active to inactive, ends every session of the user.
  predicate MustRevoke(before: User, after: User) {
    (before.isActive && !after.isActive) || before.role != after.role
  }

  predicate EditAllowed(users: Users, uid: Id, email: Option<Id>) {
    && FindUser(users, uid).Some?
    && (email.Some? && email.value != users[uid].email ==> !EmailTaken(users, email.value))
  }
}
