/** The authentication services as they run: objects over mutable stores, proved against module AuthOperations. */
module AuthServices {
  import opened Options
  import opened AuthEntities
  import opened RowUpdates
  import opened AuthOperations

  class UserRepository {
    var rows: Users

    constructor (initial: Users)
      ensures rows == initial
    {
      rows := initial;
    }

    method GetById(uid: Id) returns (r: Option<User>)
      ensures r == FindUser(rows, uid)
    {
      if uid in rows && !rows[uid].deleted { r := Some(rows[uid]); } else { r := None; }
    }

    method GetByUsername(name: Id) returns (r: Option<Id>)
      ensures FoundByName(rows, name, r)
    {
      if uid :| uid in rows && !rows[uid].deleted && rows[uid].username == name { r := Some(uid); } else { r := None; }
    }

    method GetTokenVersion(uid: Id) returns (r: Option<int>)
      ensures r == if FindUser(rows, uid).Some? then Some(rows[uid].tokenVersion) else None
    {
      if uid in rows && !rows[uid].deleted { r := Some(rows[uid].tokenVersion); } else { r := None; }
    }

    // The version after the bump; none if no live row matched.
    method Bump(uid: Id) returns (r: Option<int>)
      modifies this
      ensures (rows, r.Some?) == BumpTokenVersion(old(rows), uid)
      ensures r.Some? ==> uid in rows && r.value == rows[uid].tokenVersion
    {
      if uid in rows && !rows[uid].deleted {
        rows := rows[uid := rows[uid].(tokenVersion := rows[uid].tokenVersion + 1)];
      }
      r := GetTokenVersion(uid);
    }

    // Two statements in one transaction: the columns first, the version second.
    method UpdatePasswordAndBumpVersion(uid: Id, password: Id) returns (r: Option<int>)
      modifies this
      ensures (rows, r.Some?) == UpdatePasswordAndBump(old(rows), uid, password)
      ensures r.Some? ==> uid in rows && r.value == rows[uid].tokenVersion
    {
      if uid in rows && !rows[uid].deleted {
        rows := rows[uid := rows[uid].(password := password, isFirstLogin := false)];
        rows := rows[uid := rows[uid].(tokenVersion := rows[uid].tokenVersion + 1)];
        assert rows == UpdatePasswordAndBump(old(rows), uid, password).0;
      }
      r := GetTokenVersion(uid);
    }

    method UpdateAndBumpVersion(uid: Id, email: Id, role: Role, isActive: bool) returns (r: Option<int>)
      modifies this
      ensures (rows, r.Some?) == UpdateAndBump(old(rows), uid, email, role, isActive)
      ensures r.Some? ==> uid in rows && r.value == rows[uid].tokenVersion
    {
      if uid in rows && !rows[uid].deleted {
        rows := rows[uid := rows[uid].(email := email, role := role, isActive := isActive)];
        rows := rows[uid := rows[uid].(tokenVersion := rows[uid].tokenVersion + 1)];
        assert rows == UpdateAndBump(old(rows), uid, email, role, isActive).0;
      }
      r := GetTokenVersion(uid);
    }

    method Save(uid: Id, u: User)
      modifies this
      ensures rows == old(rows)[uid := u]
    {
      rows := rows[uid := u];
    }

    method Delete(uid: Id) returns (ok: bool)
      modifies this
      ensures ok == FindUser(old(rows), uid).Some?
      ensures rows == if ok then old(rows)[uid := old(rows)[uid].(deleted := true)] else old(rows)
    {
      ok := uid in rows && !rows[uid].deleted;
      if ok { rows := rows[uid := rows[uid].(deleted := true)]; }
    }
  }

  class AuthSessionRepository {
    var rows: Sessions

    constructor (initial: Sessions)
      ensures rows == initial
    {
      rows := initial;
    }

    method Create(sid: Id, r: Session) returns (ok: bool)
      modifies this
      ensures (rows, ok) == CreateSession(old(rows), sid, r)
    {
      ok := sid !in rows && !HashTaken(rows, r.refreshHash);
      if ok { rows := rows[sid := r]; }
    }

    method GetByRefreshHash(hash: Id) returns (r: Option<Id>)
      ensures FoundByHash(rows, hash, r)
    {
      if sid :| sid in rows && rows[sid].refreshHash == hash { r := Some(sid); } else { r := None; }
    }

    // The conditional update decides; a failing insert rolls the update back.
    method RotateSession(sid: Id, hash: Id, newId: Id, replacement: Session, at: int) returns (outcome: RotateOutcome)
      modifies this
      ensures (rows, outcome) == Rotate(old(rows), sid, hash, newId, replacement, at)
    {
      var before := rows;
      if sid !in rows || rows[sid].refreshHash != hash || rows[sid].status != Active { return Lost; }
      rows := rows[sid := RotatedRow(rows[sid], newId, at)];
      var created := Create(newId, replacement);
      if !created {
        rows := before;
        return Failed;
      }
      outcome := Done;
    }

    method MarkReuse(sid: Id, at: int) returns (marked: bool)
      modifies this
      ensures (rows, marked) == MarkReuseDetected(old(rows), sid, at)
    {
      marked := sid in rows && rows[sid].status == Rotated;
      if marked { rows := rows[sid := Revoke(rows[sid], RefreshReuse, at)]; }
    }

    method RevokeSessionById(sid: Id, reason: Reason, at: int) returns (ok: bool)
      modifies this
      ensures (rows, ok) == RevokeById(old(rows), sid, reason, at)
    {
      ok := sid in rows;
      if ok { rows := rows[sid := Revoke(rows[sid], reason, at)]; }
    }

    method RevokeSessionsOf(uid: Id, reason: Reason, at: int)
      modifies this
      ensures rows == RevokeByUserId(old(rows), uid, reason, at)
    {
      rows := map sid | sid in rows ::
        if rows[sid].userId == uid && rows[sid].status == Active then Revoke(rows[sid], reason, at) else rows[sid];
    }

    method ListActive(uid: Id) returns (active: set<Id>)
      ensures active == ActiveOf(rows, uid)
    {
      active := set sid | sid in rows && rows[sid].userId == uid && rows[sid].status == Active;
    }
  }

  // Redis strings without expiry.
  class UserTokenVersionStore {
    var entries: map<Id, int>

    constructor ()
      ensures entries == map[]
    {
      entries := map[];
    }

    method Get(uid: Id) returns (r: Option<int>)
      ensures r == if uid != NO_ID && uid in entries then Some(entries[uid]) else None
    {
      if uid != NO_ID && uid in entries { r := Some(entries[uid]); } else { r := None; }
    }

    method Set(uid: Id, version: int)
      modifies this
      ensures entries == SetVersion(old(entries), uid, version)
    {
      if uid != NO_ID { entries := entries[uid := version]; }
    }
  }

  // Redis strings that die at their deadline.
  class SessionStateStore {
    var entries: map<Id, Entry>

    constructor ()
      ensures entries == map[]
    {
      entries := map[];
    }

    method Get(sid: Id, now: int) returns (r: Option<Status>)
      ensures r == if sid != NO_ID && StatusCached(entries, sid, now) then Some(entries[sid].status) else None
    {
      if sid != NO_ID && sid in entries && now < entries[sid].until { r := Some(entries[sid].status); } else { r := None; }
    }

    // A lifetime that is not positive becomes one minute.
    method Set(sid: Id, status: Status, expiresAt: int, now: int)
      modifies this
      ensures entries == SetStatus(old(entries), sid, status, expiresAt, now)
    {
      if sid == NO_ID { return; }
      var lifetime := expiresAt - now;
      if lifetime <= 0 { lifetime := MINUTE; }
      entries := entries[sid := Entry(status, now + lifetime)];
    }
  }

  lemma RevokeCachedGrows(statuses: map<Id, Entry>, revoked: set<Id>, sid: Id, rows: Sessions, now: int)
    requires revoked + {sid} <= rows.Keys
    ensures RevokeCached(statuses, revoked + {sid}, rows, now)
         == SetStatus(RevokeCached(statuses, revoked, rows, now), sid, Revoked, rows[sid].expiresAt, now)
  {
  }

  class AuthStateManager {
    const users: UserRepository
    const sessions: AuthSessionRepository
    const userVersions: UserTokenVersionStore
    const sessionStates: SessionStateStore

    constructor (users: UserRepository, sessions: AuthSessionRepository,
                 userVersions: UserTokenVersionStore, sessionStates: SessionStateStore)
      ensures this.users == users && this.sessions == sessions
      ensures this.userVersions == userVersions && this.sessionStates == sessionStates
    {
      this.users, this.sessions := users, sessions;
      this.userVersions, this.sessionStates := userVersions, sessionStates;
    }

    // The rows and cache entries the services see.
    ghost function Sees(): View
      reads users, sessions, userVersions, sessionStates
    {
      View(Db(users.rows, sessions.rows), userVersions.entries, sessionStates.entries)
    }

    // The empty identifier is never a cache key.
    ghost predicate Keyed()
      reads userVersions, sessionStates
    {
      NO_ID !in userVersions.entries && NO_ID !in sessionStates.entries
    }

    method CurrentTokenVersion(uid: Id) returns (r: Option<int>)
      requires Keyed()
      modifies userVersions
      ensures Sees() == old(Sees()).(versions := FilledVersions(old(Sees()), uid))
      ensures r == if uid in old(Sees()).versions then Some(old(Sees()).versions[uid])
                   else if FindUser(users.rows, uid).Some? then Some(users.rows[uid].tokenVersion) else None
      ensures Keyed()
    {
      r := userVersions.Get(uid);
      if r.Some? { return; }
      r := users.GetTokenVersion(uid);
      if r.Some? { userVersions.Set(uid, r.value); }
    }

    method CurrentSessionStatus(sid: Id, now: int) returns (status: Status)
      requires Keyed() && sid != NO_ID
      modifies sessionStates
      ensures Sees() == old(Sees()).(statuses := FilledStatuses(old(Sees()), sid, now))
      ensures status == StatusOf(old(Sees()), sid, now)
      ensures Keyed()
    {
      var cached := sessionStates.Get(sid, now);
      if cached.Some? { return cached.value; }
      if sid !in sessions.rows { return Revoked; }
      var row := sessions.rows[sid];
      status := row.status;
      if !IsUsable(row, now) { status := Expired; }
      sessionStates.Set(sid, status, row.expiresAt, now);
    }

    method ValidateAccessToken(c: Claims, now: int) returns (verdict: Verdict)
      requires Keyed()
      modifies userVersions, sessionStates
      ensures verdict == Check(old(Sees()), c, now)
      ensures Sees() == Checked(old(Sees()), c, now)
      ensures Keyed()
    {
      var version := CurrentTokenVersion(c.userId);
      if version.None? { return UserMissing; }
      if version.value != c.tokenVersion { return VersionMismatch; }
      if c.sessionId == NO_ID { return Accepted; }
      var status := CurrentSessionStatus(c.sessionId, now);
      verdict := if status == Active then Accepted else SessionRevoked;
    }

    method MarkSessionStatus(sid: Id, status: Status, expiresAt: int, now: int)
      modifies sessionStates
      ensures sessionStates.entries == SetStatus(old(sessionStates.entries), sid, status, expiresAt, now)
    {
      sessionStates.Set(sid, status, expiresAt, now);
    }

    method WarmUserTokenVersion(uid: Id, version: int)
      modifies userVersions
      ensures userVersions.entries == SetVersion(old(userVersions.entries), uid, version)
    {
      userVersions.Set(uid, version);
    }

    // The active sessions are listed first, revoked in one statement, and then cached as revoked one by one.
    method RevokeForUser(uid: Id, reason: Reason, now: int)
      modifies sessions, sessionStates
      ensures Sees() == RevokeSessionsForUser(old(Sees()), uid, reason, now)
      ensures Keyed() <==> old(Keyed())
    {
      var active := sessions.ListActive(uid);
      var listed := sessions.rows;
      sessions.RevokeSessionsOf(uid, reason, now);
      var rest := active;
      while rest != {}
        invariant rest <= active <= listed.Keys && listed == old(sessions.rows)
        invariant sessions.rows == RevokeByUserId(listed, uid, reason, now)
        invariant sessionStates.entries == RevokeCached(old(sessionStates.entries), active - rest, listed, now)
      {
        var sid :| sid in rest;
        assert active - (rest - {sid}) == (active - rest) + {sid};
        RevokeCachedGrows(old(sessionStates.entries), active - rest, sid, listed, now);
        sessionStates.Set(sid, Revoked, listed[sid].expiresAt, now);
        rest := rest - {sid};
      }
      assert active - rest == active;
    }

    // None if the user is gone: nothing was bumped, cached or revoked.
    method RevokeAllForUser(uid: Id, reason: Reason, now: int) returns (version: Option<int>)
      modifies users, sessions, userVersions, sessionStates
      ensures var (rows, ok) := BumpTokenVersion(old(users.rows), uid);
              && version.Some? == ok
              && (ok ==> Sees() == AfterBump(old(Sees()), rows, uid, reason, now))
              && (!ok ==> Sees() == old(Sees()))
    {
      version := users.Bump(uid);
      if version.None? { return; }
      userVersions.Set(uid, version.value);
      RevokeForUser(uid, reason, now);
    }

    method RevokeOne(sid: Id, now: int)
      modifies sessions, sessionStates
      ensures Sees() == RevokeSession(old(Sees()), sid, now)
    {
      if sid == NO_ID || sid !in sessions.rows { return; }
      var expiresAt := sessions.rows[sid].expiresAt;
      var _ := sessions.RevokeSessionById(sid, LoggedOut, now);
      sessionStates.Set(sid, Revoked, expiresAt, now);
    }
  }

  class AuthService {
    const state: AuthStateManager
    const refreshTtl: int

    constructor (state: AuthStateManager, refreshTtl: int)
      ensures this.state == state && this.refreshTtl == refreshTtl
    {
      this.state, this.refreshTtl := state, refreshTtl;
    }

    // `newId` and `newHash` are the identifiers the call generates; `found` reports the row it looked up.
    method Login(username: Id, password: Id, newId: Id, newHash: Id, now: int) returns (o: Outcome, ghost found: Option<Id>)
      modifies state.sessions, state.userVersions, state.sessionStates
      ensures FoundByName(state.users.rows, username, found)
      ensures LoginDoes(old(state.Sees()), found, password, newId, newHash, now, refreshTtl, state.Sees(), o)
    {
      var lookup := state.users.GetByUsername(username);
      found := lookup;
      if lookup.None? { return Rejected, found; }
      var u := state.users.rows[lookup.value];
      if !u.isActive { return Rejected, found; }
      if u.password != password { return Rejected, found; }
      var claims := ClaimsFor(lookup.value, newId, u);
      var r := NewSession(lookup.value, newHash, u.tokenVersion, newId, now, refreshTtl);
      var created := state.sessions.Create(newId, r);
      if !created { return StorageError, found; }
      state.MarkSessionStatus(newId, Active, r.expiresAt, now);
      state.WarmUserTokenVersion(lookup.value, u.tokenVersion);
      o := NewPair(claims, newId);
    }

    method Refresh(hash: Id, newId: Id, newHash: Id, now: int) returns (o: Outcome, ghost found: Option<Id>)
      modifies state.users, state.sessions, state.userVersions, state.sessionStates
      ensures hash != NO_ID ==> FoundByHash(old(state.sessions.rows), hash, found)
      ensures found.Some? ==> found.value in old(state.sessions.rows)
      ensures RefreshDoes(old(state.Sees()), hash, found, newId, newHash, now, refreshTtl, state.Sees(), o)
    {
      found := None;
      if hash == NO_ID { return Rejected, found; }
      var lookup := state.sessions.GetByRefreshHash(hash);
      found := lookup;
      if lookup.None? { return Rejected, found; }
      var sid, row := lookup.value, state.sessions.rows[lookup.value];
      if row.status == Rotated {
        var marked := state.sessions.MarkReuse(sid, now);
        if marked {
          var version := state.RevokeAllForUser(row.userId, RefreshReuse, now);
          if version.None? { return StorageError, found; }
        }
        return Rejected, found;
      }
      if !IsUsable(row, now) { return Rejected, found; }
      var user := state.users.GetById(row.userId);
      if user.None? { return Rejected, found; }
      if !user.value.isActive || row.tokenVersion != user.value.tokenVersion { return Rejected, found; }
      var claims := ClaimsFor(row.userId, newId, user.value);
      var r := NewSession(row.userId, newHash, user.value.tokenVersion, row.familyId, now, refreshTtl);
      var outcome := state.sessions.RotateSession(sid, hash, newId, r, now);
      // Run alone, the rotation is never lost to another request.
      if outcome != Done { return StorageError, found; }
      state.MarkSessionStatus(sid, Rotated, row.expiresAt, now);
      state.MarkSessionStatus(newId, Active, r.expiresAt, now);
      state.WarmUserTokenVersion(row.userId, user.value.tokenVersion);
      o := NewPair(claims, newId);
    }

    method Logout(token: Option<Claims>, refresh: Option<Id>, now: int) returns (ghost found: Option<Id>)
      requires state.Keyed()
      modifies state.sessions, state.userVersions, state.sessionStates
      ensures if refresh.Some? then FoundByHash(old(state.sessions.rows), refresh.value, found) else found.None?
      ensures LogoutDoes(old(state.Sees()), token, found, now, state.Sees())
    {
      if token.Some? {
        var verdict := state.ValidateAccessToken(token.value, now);
        if verdict == Accepted { state.RevokeOne(token.value.sessionId, now); }
      }
      found := None;
      assert forall sid | sid in state.sessions.rows ::
               sid in old(state.sessions.rows) && state.sessions.rows[sid].refreshHash == old(state.sessions.rows)[sid].refreshHash;
      if refresh.Some? {
        var lookup := state.sessions.GetByRefreshHash(refresh.value);
        found := lookup;
        if lookup.Some? { state.RevokeOne(lookup.value, now); }
      }
    }

    method ChangePassword(uid: Id, oldPassword: Id, newPassword: Id, now: int) returns (o: Outcome)
      modifies state.users, state.sessions, state.userVersions, state.sessionStates
      ensures PasswordDoes(old(state.Sees()), uid, oldPassword, newPassword, now, state.Sees(), o)
    {
      var user := state.users.GetById(uid);
      if user.None? || user.value.password != oldPassword { return Rejected; }
      var version := state.users.UpdatePasswordAndBumpVersion(uid, newPassword);
      state.WarmUserTokenVersion(uid, version.value);
      state.RevokeForUser(uid, PasswordChanged, now);
      o := Completed;
    }
  }

  class UserService {
    const state: AuthStateManager

    constructor (state: AuthStateManager)
      ensures this.state == state
    {
      this.state := state;
    }

    method Update(uid: Id, email: Option<Id>, role: Option<Role>, isActive: Option<bool>, now: int) returns (o: Outcome)
      modifies state.users, state.sessions, state.userVersions, state.sessionStates
      ensures UpdateDoes(old(state.Sees()), uid, email, role, isActive, now, state.Sees(), o)
    {
      var user := state.users.GetById(uid);
      if user.None? { return Rejected; }
      var u := user.value;
      if email.Some? && email.value != u.email {
        if EmailTaken(state.users.rows, email.value) { return Rejected; }
        u := u.(email := email.value);
      }
      if role.Some? { u := u.(role := role.value); }
      if isActive.Some? { u := u.(isActive := isActive.value); }
      if (!u.isActive && user.value.isActive) || (role.Some? && user.value.role != u.role) {
        var version := state.users.UpdateAndBumpVersion(uid, u.email, u.role, u.isActive);
        state.WarmUserTokenVersion(uid, version.value);
        var reason := if !u.isActive && user.value.isActive then UserDisabled else SecurityChanged;
        state.RevokeForUser(uid, reason, now);
      } else {
        state.users.Save(uid, u);
      }
      o := Completed;
    }

    // A user cannot delete itself.
    method Delete(uid: Id, actor: Id) returns (o: Outcome)
      modifies state.users
      ensures if uid == actor then state.Sees() == old(state.Sees()) && o == Rejected
              else DeleteDoes(old(state.Sees()), uid, state.Sees(), o)
    {
      if uid == actor { return Rejected; }
      var ok := state.users.Delete(uid);
      o := if ok then Completed else Rejected;
    }
  }
}
