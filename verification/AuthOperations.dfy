/** Each authentication operation run on its own: what it does to the rows, and to the two caches beside them.

    The version cache has no expiry; a cached session status lives until a deadline. */
module AuthOperations {
  import opened Options
  import opened AuthEntities
  import opened RowUpdates

  const MINUTE: int := 60  // time is counted in seconds

  datatype Db = Db(users: Users, sessions: Sessions)
  datatype Entry = Entry(status: Status, until: int)
  datatype View = View(db: Db, versions: map<Id, int>, statuses: map<Id, Entry>)

  datatype Verdict = Accepted | UserMissing | VersionMismatch | SessionRevoked
  datatype Outcome = NewPair(claims: Claims, session: Id) | Rejected | StorageError | Completed

  // ---------- the caches ----------

  function SetVersion(versions: map<Id, int>, uid: Id, version: int): map<Id, int> {
    if uid == NO_ID then versions else versions[uid := version]
  }

  function SetStatus(statuses: map<Id, Entry>, sid: Id, status: Status, expiresAt: int, now: int): map<Id, Entry> {
    if sid == NO_ID then statuses
    else statuses[sid := Entry(status, if expiresAt - now <= 0 then now + MINUTE else expiresAt)]
  }

  predicate StatusCached(statuses: map<Id, Entry>, sid: Id, now: int) {
    sid in statuses && now < statuses[sid].until
  }

  // Every listed session is cached as revoked.
  function RevokeCached(statuses: map<Id, Entry>, revoked: set<Id>, rows: Sessions, now: int): map<Id, Entry>
    requires revoked <= rows.Keys
  {
    map sid | sid in statuses.Keys + (revoked - {NO_ID}) ::
      if sid in revoked && sid != NO_ID then SetStatus(map[], sid, Revoked, rows[sid].expiresAt, now)[sid] else statuses[sid]
  }

  // ---------- checking an access token ----------

  // The check against the database alone.
  function CheckStored(db: Db, c: Claims, now: int): Verdict {
    if FindUser(db.users, c.userId).None? then UserMissing
    else if !VersionMatches(db.users, c) then VersionMismatch
    else if c.sessionId == NO_ID || StatusMatches(db.sessions, c, now) then Accepted
    else SessionRevoked
  }

  // What a cache miss finds for a session, and would write to the cache.
  function StoredStatus(rows: Sessions, sid: Id, now: int): Status {
    if sid !in rows then Revoked else if IsUsable(rows[sid], now) then rows[sid].status else Expired
  }

  function StatusOf(v: View, sid: Id, now: int): Status {
    if StatusCached(v.statuses, sid, now) then v.statuses[sid].status else StoredStatus(v.db.sessions, sid, now)
  }

  // The check through the caches.
  function Check(v: View, c: Claims, now: int): Verdict {
    var cached := c.userId in v.versions;
    if !cached && FindUser(v.db.users, c.userId).None? then UserMissing
    else if (if cached then v.versions[c.userId] else v.db.users[c.userId].tokenVersion) != c.tokenVersion then VersionMismatch
    else if c.sessionId == NO_ID then Accepted
    else if StatusOf(v, c.sessionId, now) == Active then Accepted
    else SessionRevoked
  }

  // The caches after such a check: what was missing is filled in.
  function FilledVersions(v: View, uid: Id): map<Id, int> {
    if uid in v.versions || FindUser(v.db.users, uid).None? then v.versions
    else SetVersion(v.versions, uid, v.db.users[uid].tokenVersion)
  }

  function FilledStatuses(v: View, sid: Id, now: int): map<Id, Entry> {
    if StatusCached(v.statuses, sid, now) || sid !in v.db.sessions then v.statuses
    else SetStatus(v.statuses, sid, StoredStatus(v.db.sessions, sid, now), v.db.sessions[sid].expiresAt, now)
  }

  function Checked(v: View, c: Claims, now: int): View {
    var verdict := Check(v, c, now);
    var readsStatus := (verdict == Accepted || verdict == SessionRevoked) && c.sessionId != NO_ID;
    v.(versions := FilledVersions(v, c.userId),
       statuses := if readsStatus then FilledStatuses(v, c.sessionId, now) else v.statuses)
  }

  // ---------- revoking ----------

  function RevokeSession(v: View, sid: Id, now: int): View {
    var known := sid != NO_ID && sid in v.db.sessions;
    v.(db := v.db.(sessions := if known then RevokeById(v.db.sessions, sid, LoggedOut, now).0 else v.db.sessions),
       statuses := if known then SetStatus(v.statuses, sid, Revoked, v.db.sessions[sid].expiresAt, now) else v.statuses)
  }

  function RevokeSessionsForUser(v: View, uid: Id, reason: Reason, now: int): View {
    v.(db := v.db.(sessions := RevokeByUserId(v.db.sessions, uid, reason, now)),
       statuses := RevokeCached(v.statuses, ActiveOf(v.db.sessions, uid), v.db.sessions, now))
  }

  // A bump that succeeded is cached, then every session of the user is revoked.
  function AfterBump(v: View, rows: Users, uid: Id, reason: Reason, now: int): View
    requires uid in rows
  {
    RevokeSessionsForUser(v.(db := v.db.(users := rows), versions := SetVersion(v.versions, uid, rows[uid].tokenVersion)),
                          uid, reason, now)
  }

  // ---------- the operations ----------

  // A session that was stored is cached as active, with the version it was opened at.
  function Opened(v: View, rows: Sessions, sid: Id, r: Session, now: int): View {
    View(v.db.(sessions := rows), SetVersion(v.versions, r.userId, r.tokenVersion),
         SetStatus(v.statuses, sid, Active, r.expiresAt, now))
  }

  ghost predicate LoginDoes(v: View, found: Option<Id>, password: Id, newId: Id, newHash: Id, now: int, ttl: int, w: View, o: Outcome)
    requires found.Some? ==> found.value in v.db.users
  {
    if !LoginAccepted(v.db.users, found, password) then w == v && o == Rejected
    else
      var uid, u := found.value, v.db.users[found.value];
      var r := NewSession(uid, newHash, u.tokenVersion, newId, now, ttl);
      var (rows, ok) := CreateSession(v.db.sessions, newId, r);
      if ok then w == Opened(v, rows, newId, r, now) && o == NewPair(ClaimsFor(uid, newId, u), newId)
      else w == v && o == StorageError
  }

  // Reuse of a rotated session: it is revoked, and if its user still exists everything else is.
  ghost predicate ReuseDoes(v: View, sid: Id, now: int, w: View, o: Outcome)
    requires sid in v.db.sessions
  {
    var uid := v.db.sessions[sid].userId;
    var marked := v.(db := v.db.(sessions := MarkReuseDetected(v.db.sessions, sid, now).0));
    var (rows, ok) := BumpTokenVersion(v.db.users, uid);
    if ok then w == AfterBump(marked, rows, uid, RefreshReuse, now) && o == Rejected
    else w == marked && o == StorageError
  }

  ghost predicate RotateDoes(v: View, sid: Id, newId: Id, newHash: Id, now: int, ttl: int, w: View, o: Outcome)
    requires sid in v.db.sessions && v.db.sessions[sid].userId in v.db.users
  {
    var row := v.db.sessions[sid];
    var u := v.db.users[row.userId];
    var r := NewSession(row.userId, newHash, u.tokenVersion, row.familyId, now, ttl);
    var (rows, outcome) := Rotate(v.db.sessions, sid, row.refreshHash, newId, r, now);
    if outcome == Done then
      && w == Opened(v.(statuses := SetStatus(v.statuses, sid, Rotated, row.expiresAt, now)), rows, newId, r, now)
      && o == NewPair(ClaimsFor(row.userId, newId, u), newId)
    else w == v && o == StorageError
  }

  ghost predicate RefreshDoes(v: View, hash: Id, found: Option<Id>, newId: Id, newHash: Id, now: int, ttl: int, w: View, o: Outcome)
    requires found.Some? ==> found.value in v.db.sessions
  {
    if hash == NO_ID || found.None? then w == v && o == Rejected
    else if v.db.sessions[found.value].status == Rotated then ReuseDoes(v, found.value, now, w, o)
    else if !IsUsable(v.db.sessions[found.value], now) || !RefreshAllowed(v.db.users, v.db.sessions[found.value]) then
      w == v && o == Rejected
    else RotateDoes(v, found.value, newId, newHash, now, ttl, w, o)
  }

  ghost predicate LogoutDoes(v: View, claims: Option<Claims>, found: Option<Id>, now: int, w: View)
    requires found.Some? ==> found.value in v.db.sessions
  {
    var v1 := if claims.Some? then Checked(v, claims.value, now) else v;
    var v2 := if claims.Some? && Check(v, claims.value, now) == Accepted then RevokeSession(v1, claims.value.sessionId, now) else v1;
    w == if found.Some? then RevokeSession(v2, found.value, now) else v2
  }

  ghost predicate PasswordDoes(v: View, uid: Id, oldPassword: Id, newPassword: Id, now: int, w: View, o: Outcome) {
    if FindUser(v.db.users, uid).None? || v.db.users[uid].password != oldPassword then w == v && o == Rejected
    else w == AfterBump(v, UpdatePasswordAndBump(v.db.users, uid, newPassword).0, uid, PasswordChanged, now) && o == Completed
  }

  // `Rejected` means that nothing was written.
  ghost predicate UpdateDoes(v: View, uid: Id, email: Option<Id>, role: Option<Role>, isActive: Option<bool>, now: int, w: View, o: Outcome) {
    if !EditAllowed(v.db.users, uid, email) then w == v && o == Rejected
    else
      var before := v.db.users[uid];
      var after := Edited(before, email, role, isActive);
      var reason := if before.isActive && !after.isActive then UserDisabled else SecurityChanged;
      o == Completed &&
      if MustRevoke(before, after) then
        w == AfterBump(v, UpdateAndBump(v.db.users, uid, after.email, after.role, after.isActive).0, uid, reason, now)
      else w == v.(db := v.db.(users := v.db.users[uid := after]))
  }

  ghost predicate DeleteDoes(v: View, uid: Id, w: View, o: Outcome) {
    if FindUser(v.db.users, uid).None? then w == v && o == Rejected
    else w == v.(db := v.db.(users := v.db.users[uid := v.db.users[uid].(deleted := true)])) && o == Completed
  }

  ghost predicate CreateDoes(v: View, uid: Id, u: User, w: View, o: Outcome) {
    if uid in v.db.users then w == v && o == StorageError
    else w == v.(db := v.db.(users := v.db.users[uid := u])) && o == Completed
  }

  // ---------- runs of whole operations ----------

  datatype Op =
    | Login(username: Id, found: Option<Id>, password: Id, newId: Id, newHash: Id)
    | Refresh(hash: Id, found: Option<Id>, newId: Id, newHash: Id)
    | CheckToken(claims: Claims)
    | Logout(token: Option<Claims>, refresh: Option<Id>, found: Option<Id>)
    | ChangePassword(uid: Id, oldPassword: Id, newPassword: Id)
    | UpdateUser(uid: Id, email: Option<Id>, role: Option<Role>, isActive: Option<bool>)
    | DeleteUser(uid: Id)
    | CreateUser(uid: Id, user: User)

  ghost predicate LookupOk(db: Db, op: Op) {
    match op
    case Login(username, found, _, _, _) => FoundByName(db.users, username, found)
    case Refresh(hash, found, _, _) => FoundByHash(db.sessions, hash, found)
    case Logout(_, refresh, found) =>
      if refresh.Some? then FoundByHash(db.sessions, refresh.value, found) else found.None?
    case _ => true
  }

  // Operation `op`, run alone at time `now`, turns `v` into `w` and answers `o`.
  ghost predicate Does(v: View, op: Op, now: int, ttl: int, w: View, o: Outcome) {
    LookupOk(v.db, op) &&
    match op
    case Login(_, found, password, newId, newHash) => LoginDoes(v, found, password, newId, newHash, now, ttl, w, o)
    case Refresh(hash, found, newId, newHash) => RefreshDoes(v, hash, found, newId, newHash, now, ttl, w, o)
    case CheckToken(c) => w == Checked(v, c, now) && o == if Check(v, c, now) == Accepted then Completed else Rejected
    case Logout(token, _, found) => LogoutDoes(v, token, found, now, w) && o == Completed
    case ChangePassword(uid, oldPassword, newPassword) => PasswordDoes(v, uid, oldPassword, newPassword, now, w, o)
    case UpdateUser(uid, email, role, isActive) => UpdateDoes(v, uid, email, role, isActive, now, w, o)
    case DeleteUser(uid) => DeleteDoes(v, uid, w, o)
    case CreateUser(uid, u) => CreateDoes(v, uid, u, w, o)
  }
}
