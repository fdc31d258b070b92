/** What each operation does, read off the rows alone: who is let in, what is stored, and which sessions end. */
module AuthEffects {
  import opened Options
  import opened AuthEntities
  import opened RowUpdates
  import opened AuthOperations

  // ---------- words for it ----------

  predicate IsLive(db: Db, uid: Id) {
    uid in db.users && !db.users[uid].deleted
  }

  // No session of the user can be used any more.
  predicate AllEnded(db: Db, uid: Id) {
    forall sid | sid in db.sessions && db.sessions[sid].userId == uid :: db.sessions[sid].status != Active
  }

  predicate SameUsersBut(a: Db, b: Db, uid: Id) {
    a.users.Keys == b.users.Keys && forall x | x in a.users && x != uid :: b.users[x] == a.users[x]
  }

  // The sessions of one user are revoked for a reason at a time, those of others and those that had ended are kept.
  predicate EndedNow(a: Db, b: Db, uid: Id, reason: Reason, now: int) {
    && a.sessions.Keys == b.sessions.Keys
    && forall sid | sid in a.sessions ::
         b.sessions[sid] == if a.sessions[sid].userId == uid && a.sessions[sid].status == Active
                            then a.sessions[sid].(status := Revoked, revokedAt := Some(now), revokeReason := reason)
                            else a.sessions[sid]
  }

  // The caches know of a bump and of every session that it ended.
  predicate CachesKnow(v: View, w: View, uid: Id) {
    && (uid != NO_ID ==> uid in w.db.users && uid in w.versions && w.versions[uid] == w.db.users[uid].tokenVersion)
    && forall sid | sid in v.db.sessions && v.db.sessions[sid].userId == uid && v.db.sessions[sid].status == Active && sid != NO_ID ::
         sid in w.statuses && w.statuses[sid].status == Revoked
  }

  lemma BumpEffects(v: View, rows: Users, uid: Id, reason: Reason, now: int)
    requires uid in rows && rows.Keys == v.db.users.Keys
    ensures var w := AfterBump(v, rows, uid, reason, now);
            w.db.users == rows && AllEnded(w.db, uid) && EndedNow(v.db, w.db, uid, reason, now)
  {
  }

  lemma BumpIsCached(v: View, rows: Users, uid: Id, reason: Reason, now: int)
    requires uid in rows
    ensures CachesKnow(v, AfterBump(v, rows, uid, reason, now), uid)
  {
  }

  // ---------- Login ----------

  // A login is turned away exactly if there is no active user of that name with that password.
  lemma LoginNeedsThePassword(v: View, found: Option<Id>, password: Id, newId: Id, newHash: Id, now: int, ttl: int, w: View, o: Outcome)
    requires (found.Some? ==> found.value in v.db.users) && LoginDoes(v, found, password, newId, newHash, now, ttl, w, o)
    ensures o == Rejected <==> !(found.Some? && v.db.users[found.value].isActive && v.db.users[found.value].password == password)
    ensures o == Rejected ==> w == v
    ensures o.NewPair? <==> && o != Rejected && newId !in v.db.sessions
                            && forall sid | sid in v.db.sessions :: v.db.sessions[sid].refreshHash != newHash
    ensures o == StorageError <==> !o.NewPair? && o != Rejected
  {
  }

  // As long as no two users that exist have the same name, somebody who knows the name and the password of one that is
  // active gets in, and nobody else.
  lemma LoginByName(v: View, name: Id, found: Option<Id>, password: Id, newId: Id, newHash: Id, now: int, ttl: int, w: View, o: Outcome)
    requires FoundByName(v.db.users, name, found) && LoginDoes(v, found, password, newId, newHash, now, ttl, w, o)
    requires forall x, y | IsLive(v.db, x) && IsLive(v.db, y) && x != y :: v.db.users[x].username != v.db.users[y].username
    ensures o == Rejected
       <==> !exists uid :: IsLive(v.db, uid) && v.db.users[uid].isActive
                           && v.db.users[uid].username == name && v.db.users[uid].password == password
  {
    LoginNeedsThePassword(v, found, password, newId, newHash, now, ttl, w, o);
    if found.Some? { assert IsLive(v.db, found.value); }
  }

  // A session just opened is cached, with its user's version; one that has no lifetime is kept for a minute.
  predicate CachesOpened(v: View, w: View, uid: Id, version: int, newId: Id, now: int, ttl: int) {
    && (uid != NO_ID ==> uid in w.versions && w.versions[uid] == version)
    && (forall x | x in v.versions && x != uid :: x in w.versions && w.versions[x] == v.versions[x])
    && (newId != NO_ID ==> newId in w.statuses && w.statuses[newId] == Entry(Active, if ttl <= 0 then now + 60 else now + ttl))
  }

  // What a login leaves: one session more, and a token that tells the truth about its user.
  lemma LoginOpens(v: View, found: Option<Id>, password: Id, newId: Id, newHash: Id, now: int, ttl: int, w: View, o: Outcome)
    requires (found.Some? ==> found.value in v.db.users) && LoginDoes(v, found, password, newId, newHash, now, ttl, w, o)
    requires o.NewPair?
    ensures var uid, u := found.value, v.db.users[found.value];
            && o == NewPair(Claims(uid, newId, u.username, u.role, u.tokenVersion), newId)
            && newId !in v.db.sessions && w.db.users == v.db.users
            && w.db.sessions == v.db.sessions[newId := Session(uid, newHash, Active, u.tokenVersion, newId, None, Some(now),
                                                               now + ttl, None, None, NoReason)]
            && CachesOpened(v, w, uid, u.tokenVersion, newId, now, ttl)
  {
  }

  // ---------- checking a token ----------

  // The check against the database accepts a token exactly if its user is there at the token's version, and its
  // session, unless it names none, is active and has not expired.
  lemma CheckAcceptsIff(db: Db, c: Claims, now: int)
    ensures CheckStored(db, c, now) == Accepted
       <==> && IsLive(db, c.userId) && db.users[c.userId].tokenVersion == c.tokenVersion
            && (c.sessionId == NO_ID ||
                (&& c.sessionId in db.sessions
                 && db.sessions[c.sessionId].status == Active && now < db.sessions[c.sessionId].expiresAt
                 && (db.sessions[c.sessionId].idleExpiresAt.Some? ==> now < db.sessions[c.sessionId].idleExpiresAt.value)))
  {
  }

  // The token that a login has just issued is good until its session expires.
  lemma FreshTokenIsAccepted(v: View, found: Option<Id>, password: Id, newId: Id, newHash: Id, now: int, ttl: int, w: View, o: Outcome,
                             later: int)
    requires (found.Some? ==> found.value in v.db.users && !v.db.users[found.value].deleted)
    requires LoginDoes(v, found, password, newId, newHash, now, ttl, w, o) && o.NewPair? && newId != NO_ID
    ensures CheckStored(w.db, o.claims, later) == Accepted <==> later < now + ttl
  {
  }

  // What a check that goes through leaves in the caches.
  lemma CheckFillsCaches(v: View, c: Claims, now: int)
    ensures var w := Checked(v, c, now);
            && w.db == v.db
            && (IsLive(v.db, c.userId) && c.userId != NO_ID && c.userId !in v.versions ==>
                  c.userId in w.versions && w.versions[c.userId] == v.db.users[c.userId].tokenVersion)
            && (c.userId in v.versions ==> w.versions == v.versions)
            && (Check(v, c, now) == Accepted && c.sessionId != NO_ID && c.sessionId in v.db.sessions ==>
                  c.sessionId in w.statuses && w.statuses[c.sessionId].status == Active && now < w.statuses[c.sessionId].until)
  {
  }

  // ---------- Refresh ----------

  // A refresh can go on exactly with the token of an active, unexpired session of a live, active user at its version.
  predicate CanRefresh(db: Db, hash: Id, found: Option<Id>, now: int)
    requires found.Some? ==> found.value in db.sessions
  {
    && hash != NO_ID && found.Some?
    && var row := db.sessions[found.value];
    && row.status == Active && now < row.expiresAt && (row.idleExpiresAt.Some? ==> now < row.idleExpiresAt.value)
    && IsLive(db, row.userId) && db.users[row.userId].isActive && db.users[row.userId].tokenVersion == row.tokenVersion
  }

  lemma RefreshNeedsAUsableSession(v: View, hash: Id, found: Option<Id>, newId: Id, newHash: Id, now: int, ttl: int, w: View, o: Outcome)
    requires (found.Some? ==> found.value in v.db.sessions) && RefreshDoes(v, hash, found, newId, newHash, now, ttl, w, o)
    ensures o.NewPair? ==> CanRefresh(v.db, hash, found, now)
    ensures CanRefresh(v.db, hash, found, now) ==>
              && (o.NewPair? || o == StorageError)
              && (o.NewPair? <==> newId !in v.db.sessions && forall sid | sid in v.db.sessions :: v.db.sessions[sid].refreshHash != newHash)
    ensures !CanRefresh(v.db, hash, found, now) && !(hash != NO_ID && found.Some? && v.db.sessions[found.value].status == Rotated)
            ==> o == Rejected && w == v
  {
    if CanRefresh(v.db, hash, found, now) {
      var row := v.db.sessions[found.value];
      var r := NewSession(row.userId, newHash, v.db.users[row.userId].tokenVersion, row.familyId, now, ttl);
      RotationEffects(v.db.sessions, found.value, row.refreshHash, newId, r, now);
    }
  }

  // A refresh that goes on rotates the presented session into one new one of the same user and family.
  lemma RefreshRotates(v: View, hash: Id, found: Option<Id>, newId: Id, newHash: Id, now: int, ttl: int, w: View, o: Outcome)
    requires (found.Some? ==> found.value in v.db.sessions && v.db.sessions[found.value].refreshHash == hash)
    requires RefreshDoes(v, hash, found, newId, newHash, now, ttl, w, o) && o.NewPair?
    ensures found.Some? && v.db.sessions[found.value].userId in v.db.users
    ensures var sid, row := found.value, v.db.sessions[found.value];
            var u := v.db.users[row.userId];
            && o == NewPair(Claims(row.userId, newId, u.username, u.role, u.tokenVersion), newId)
            && newId !in v.db.sessions && w.db.users == v.db.users
            && w.db.sessions == v.db.sessions
                 [sid := row.(status := Rotated, replacedBy := Some(newId), lastUsedAt := Some(now))]
                 [newId := Session(row.userId, newHash, Active, u.tokenVersion, row.familyId, None, Some(now), now + ttl, None, None,
                                   NoReason)]
            && CachesOpened(v, w, row.userId, u.tokenVersion, newId, now, ttl)
            && (sid != NO_ID ==> sid in w.statuses && w.statuses[sid].status == Rotated)
  {
  }

  // A rotation is lost exactly if the session is not there as it was read and active, and only one that is done writes.
  lemma RotationEffects(rows: Sessions, sid: Id, hash: Id, newId: Id, replacement: Session, now: int)
    ensures var (after, outcome) := Rotate(rows, sid, hash, newId, replacement, now);
            && (outcome == Lost <==> !(sid in rows && rows[sid].refreshHash == hash && rows[sid].status == Active))
            && (outcome == Done <==> outcome != Lost && newId !in rows && forall x | x in rows :: rows[x].refreshHash != replacement.refreshHash)
            && (outcome != Done ==> after == rows)
            && (outcome == Done ==> after == rows[sid := rows[sid].(status := Rotated, replacedBy := Some(newId), lastUsedAt := Some(now))]
                                                 [newId := replacement])
  {
    var marked := if sid in rows then rows[sid := RotatedRow(rows[sid], newId, now)] else rows;
    assert forall x | x in rows :: marked[x].refreshHash == rows[x].refreshHash;
    if IsCurrent(rows, sid, hash) && HashTaken(rows, replacement.refreshHash) {
      var x :| x in rows && rows[x].refreshHash == replacement.refreshHash;
      assert marked[x].refreshHash == replacement.refreshHash;
    }
  }

  // Presenting the token of a session that has been rotated is answered by revoking that session and, if its user still
  // exists, by a new version for the user and the end of every session, whoever holds it.
  lemma ReuseEndsEverything(v: View, hash: Id, found: Option<Id>, newId: Id, newHash: Id, now: int, ttl: int, w: View, o: Outcome)
    requires found.Some? && found.value in v.db.sessions && v.db.sessions[found.value].status == Rotated && hash != NO_ID
    requires RefreshDoes(v, hash, found, newId, newHash, now, ttl, w, o)
    ensures w.db.sessions.Keys == v.db.sessions.Keys
    ensures var row := v.db.sessions[found.value];
            && w.db.sessions[found.value] == row.(status := Revoked, revokedAt := Some(now), revokeReason := RefreshReuse)
            && if IsLive(v.db, row.userId) then
                 && o == Rejected && SameUsersBut(v.db, w.db, row.userId)
                 && w.db.users[row.userId] == v.db.users[row.userId].(tokenVersion := v.db.users[row.userId].tokenVersion + 1)
                 && AllEnded(w.db, row.userId) && CachesKnow(v, w, row.userId)
               else
                 && o == StorageError && w.db.users == v.db.users
                 && forall x | x in v.db.sessions && x != found.value :: w.db.sessions[x] == v.db.sessions[x]
  {
    var sid := found.value;
    var uid := v.db.sessions[sid].userId;
    var marked := v.(db := v.db.(sessions := MarkReuseDetected(v.db.sessions, sid, now).0));
    if IsLive(v.db, uid) {
      BumpEffects(marked, w.db.users, uid, RefreshReuse, now);
      BumpIsCached(marked, w.db.users, uid, RefreshReuse, now);
    }
  }

  // ---------- ChangePassword ----------

  lemma PasswordIsStored(v: View, uid: Id, oldPassword: Id, newPassword: Id, now: int, w: View, o: Outcome)
    requires PasswordDoes(v, uid, oldPassword, newPassword, now, w, o)
    ensures o == Completed <==> IsLive(v.db, uid) && v.db.users[uid].password == oldPassword
    ensures o != Completed ==> o == Rejected && w == v
    ensures o == Completed ==>
              && SameUsersBut(v.db, w.db, uid)
              && w.db.users[uid] == v.db.users[uid].(password := newPassword, isFirstLogin := false,
                                                     tokenVersion := v.db.users[uid].tokenVersion + 1)
              && AllEnded(w.db, uid) && EndedNow(v.db, w.db, uid, PasswordChanged, now) && CachesKnow(v, w, uid)
  {
    if o == Completed {
      BumpEffects(v, w.db.users, uid, PasswordChanged, now);
      BumpIsCached(v, w.db.users, uid, PasswordChanged, now);
    }
  }

  // After a password change the user gets in with the new password and not with the old one.
  lemma NewPasswordWorks(v: View, uid: Id, oldPassword: Id, newPassword: Id, now: int, w: View,
                         tried: Id, newId: Id, newHash: Id, later: int, ttl: int, x: View, o: Outcome)
    requires PasswordDoes(v, uid, oldPassword, newPassword, now, w, Completed)
    requires uid in w.db.users && LoginDoes(w, Some(uid), tried, newId, newHash, later, ttl, x, o)
    ensures tried == newPassword && v.db.users[uid].isActive ==> o != Rejected
    ensures tried == oldPassword != newPassword ==> o == Rejected
  {
    PasswordIsStored(v, uid, oldPassword, newPassword, now, w, Completed);
    LoginNeedsThePassword(w, Some(uid), tried, newId, newHash, later, ttl, x, o);
  }

  // ---------- updating and deleting users ----------

  // The requested changes take away what a token says about its user: another role, or no activity any more.
  predicate EndsSessions(before: User, role: Option<Role>, isActive: Option<bool>) {
    (role.Some? && role.value != before.role) || (isActive == Some(false) && before.isActive)
  }

  // What is asked for is stored, field by field, and nothing else.
  predicate Asked(before: User, after: User, email: Option<Id>, role: Option<Role>, isActive: Option<bool>) {
    && after.email == (match email case Some(e) => e case None => before.email)
    && after.role == (match role case Some(r) => r case None => before.role)
    && after.isActive == (match isActive case Some(b) => b case None => before.isActive)
    && after.username == before.username && after.password == before.password
    && after.isFirstLogin == before.isFirstLogin && after.deleted == before.deleted
    && after.tokenVersion == before.tokenVersion + (if EndsSessions(before, role, isActive) then 1 else 0)
  }

  lemma UpdateStoresWhatIsAsked(v: View, uid: Id, email: Option<Id>, role: Option<Role>, isActive: Option<bool>, now: int, w: View, o: Outcome)
    requires UpdateDoes(v, uid, email, role, isActive, now, w, o)
    ensures o == Completed <==>
              && IsLive(v.db, uid)
              && (email.Some? && email.value != v.db.users[uid].email ==>
                    forall x | x in v.db.users :: v.db.users[x].email != email.value)
    ensures o != Completed ==> o == Rejected && w == v
    ensures o == Completed ==>
              && SameUsersBut(v.db, w.db, uid) && Asked(v.db.users[uid], w.db.users[uid], email, role, isActive)
              && if EndsSessions(v.db.users[uid], role, isActive) then
                   && AllEnded(w.db, uid) && CachesKnow(v, w, uid)
                   && EndedNow(v.db, w.db, uid,
                               if v.db.users[uid].isActive && isActive == Some(false) then UserDisabled else SecurityChanged, now)
                 else w.db.sessions == v.db.sessions && w.versions == v.versions && w.statuses == v.statuses
  {
    if o == Completed {
      var before := v.db.users[uid];
      if EndsSessions(before, role, isActive) {
        var reason := if before.isActive && isActive == Some(false) then UserDisabled else SecurityChanged;
        BumpEffects(v, w.db.users, uid, reason, now);
        BumpIsCached(v, w.db.users, uid, reason, now);
      }
    }
  }

  // A deleted user is kept as a row, and neither a token nor a refresh token nor a password gets it in against the
  // database from then on.
  lemma DeletedUserIsOut(v: View, uid: Id, w: View, o: Outcome)
    requires DeleteDoes(v, uid, w, o)
    ensures o == Completed <==> IsLive(v.db, uid)
    ensures o != Completed ==> o == Rejected && w == v
    ensures o == Completed ==> SameUsersBut(v.db, w.db, uid) && w.db.users[uid] == v.db.users[uid].(deleted := true)
    ensures w.db.sessions == v.db.sessions
    ensures forall c: Claims, now: int | c.userId == uid :: CheckStored(w.db, c, now) != Accepted
    ensures forall name: Id :: !FoundByName(w.db.users, name, Some(uid))
    ensures forall hash: Id, found: Option<Id>, now: int |
              found.Some? && found.value in w.db.sessions && w.db.sessions[found.value].userId == uid :: !CanRefresh(w.db, hash, found, now)
  {
  }

  // ---------- Logout ----------

  // A logout revokes the session of an accepted token and the session of the refresh token, and touches nothing else.
  lemma LogoutRevokes(v: View, token: Option<Claims>, found: Option<Id>, now: int, w: View)
    requires (found.Some? ==> found.value in v.db.sessions) && LogoutDoes(v, token, found, now, w)
    ensures w.db.users == v.db.users && w.db.sessions.Keys == v.db.sessions.Keys
    ensures forall sid | sid in v.db.sessions ::
              var hit := sid != NO_ID && (found == Some(sid) ||
                         (token.Some? && token.value.sessionId == sid && Check(v, token.value, now) == Accepted));
              && (hit ==> w.db.sessions[sid] ==
                            v.db.sessions[sid].(status := Revoked, revokedAt := Some(now), revokeReason := LoggedOut)
                          && sid in w.statuses && w.statuses[sid].status == Revoked)
              && (!hit ==> w.db.sessions[sid] == v.db.sessions[sid])
  {
  }
}
