/** The caches never change a decision: a token is judged through them exactly as against the database alone. */
module AuthCoherence {
  import opened Options
  import opened AuthEntities
  import opened RowUpdates
  import opened AuthOperations

  // ---------- what the caches may hold ----------

  // Nothing is stored under the statuses and deadlines the code never writes.
  ghost predicate RowsPlain(rows: Sessions) {
    forall sid | sid in rows :: rows[sid].idleExpiresAt.None? && rows[sid].status != Expired
  }

  ghost predicate VersionsTrue(versions: map<Id, int>, users: Users) {
    NO_ID !in versions && forall uid | uid in versions :: uid in users && versions[uid] == users[uid].tokenVersion
  }

  // An entry that says "active" dies with its session at the latest; any other live entry is about a session
  // that can no longer be used.  The stored status may differ (rotated against revoked), the decision not.
  predicate EntryTrue(e: Entry, row: Session, now: int) {
    && (e.status == Active ==> row.status == Active && e.until <= row.expiresAt)
    && (e.status != Active && now < e.until ==> !IsUsable(row, now))
  }

  ghost predicate StatusesTrue(statuses: map<Id, Entry>, rows: Sessions, now: int) {
    NO_ID !in statuses && forall sid | sid in statuses :: sid in rows && EntryTrue(statuses[sid], rows[sid], now)
  }

  ghost predicate Coherent(v: View, now: int) {
    RowsPlain(v.db.sessions) && VersionsTrue(v.versions, v.db.users) && StatusesTrue(v.statuses, v.db.sessions, now)
  }

  // ---------- the decision ----------

  // The caches agree with the database about a token unless its user was soft-deleted while cached:
  // deleting a user bumps no version, so the version cache keeps answering for it.
  lemma CheckAgreesUnlessDeleted(v: View, c: Claims, now: int)
    requires Coherent(v, now)
    ensures Check(v, c, now) == CheckStored(v.db, c, now)
       <==> !(c.userId in v.versions && v.db.users[c.userId].deleted)
  {
    if StatusCached(v.statuses, c.sessionId, now) {
      assert EntryTrue(v.statuses[c.sessionId], v.db.sessions[c.sessionId], now);
    }
  }

  // Everything else about a token of a deleted user still fits: only the user is gone.
  predicate FitsButForUser(db: Db, c: Claims, now: int)
    requires c.userId in db.users
  {
    db.users[c.userId].tokenVersion == c.tokenVersion && (c.sessionId == NO_ID || StatusMatches(db.sessions, c, now))
  }

  // Whether a token is let in, which is all its bearer can see, differs exactly for a token that would still be
  // good had its user not been soft-deleted while cached.
  lemma DecisionAgreesIff(v: View, c: Claims, now: int)
    requires Coherent(v, now)
    ensures (Check(v, c, now) == Accepted) == (CheckStored(v.db, c, now) == Accepted)
       <==> !(c.userId in v.versions && v.db.users[c.userId].deleted && FitsButForUser(v.db, c, now))
  {
    if StatusCached(v.statuses, c.sessionId, now) {
      assert EntryTrue(v.statuses[c.sessionId], v.db.sessions[c.sessionId], now);
    }
  }

  // ---------- every operation keeps the caches coherent ----------

  lemma TimePasses(v: View, now: int, later: int)
    requires Coherent(v, now) && now <= later
    ensures Coherent(v, later)
  {
  }

  lemma CheckedCoherent(v: View, c: Claims, now: int)
    requires Coherent(v, now)
    ensures Coherent(Checked(v, c, now), now)
  {
  }

  lemma RevokeSessionCoherent(v: View, sid: Id, now: int)
    requires Coherent(v, now)
    ensures Coherent(RevokeSession(v, sid, now), now)
  {
  }

  lemma RevokeAllCoherent(v: View, uid: Id, reason: Reason, now: int)
    requires Coherent(v, now)
    ensures Coherent(RevokeSessionsForUser(v, uid, reason, now), now)
  {
    var w := RevokeSessionsForUser(v, uid, reason, now);
    forall sid | sid in w.statuses
      ensures sid in w.db.sessions && EntryTrue(w.statuses[sid], w.db.sessions[sid], now)
    {
      if sid !in ActiveOf(v.db.sessions, uid) { assert w.db.sessions[sid] == v.db.sessions[sid]; }
    }
  }

  // `rows` is `users` after the row of `uid` was written and, if its version moved, `version` is cached for it.
  lemma BumpCoherent(v: View, rows: Users, uid: Id, reason: Reason, now: int)
    requires Coherent(v, now) && uid in v.db.users && uid in rows && rows == v.db.users[uid := rows[uid]]
    requires uid != NO_ID
    ensures Coherent(AfterBump(v, rows, uid, reason, now), now)
  {
    RevokeAllCoherent(v.(db := v.db.(users := rows), versions := SetVersion(v.versions, uid, rows[uid].tokenVersion)),
                      uid, reason, now);
  }

  lemma OpenedCoherent(v: View, sid: Id, r: Session, now: int)
    requires Coherent(v, now) && sid !in v.db.sessions && r.status == Active && r.idleExpiresAt.None?
    requires now < r.expiresAt && r.userId in v.db.users && r.tokenVersion == v.db.users[r.userId].tokenVersion
    ensures Coherent(Opened(v, v.db.sessions[sid := r], sid, r, now), now)
  {
  }

  lemma RotatedCoherent(v: View, sid: Id, newId: Id, now: int)
    requires Coherent(v, now) && sid in v.db.sessions && sid != NO_ID
    ensures var row := v.db.sessions[sid];
            Coherent(v.(db := v.db.(sessions := v.db.sessions[sid := RotatedRow(row, newId, now)]),
                        statuses := SetStatus(v.statuses, sid, Rotated, row.expiresAt, now)), now)
  {
  }

  // Row identifiers are never the empty string.
  predicate Named(db: Db) {
    NO_ID !in db.users && NO_ID !in db.sessions
  }

  lemma LoginCoherent(v: View, found: Option<Id>, password: Id, newId: Id, newHash: Id, now: int, ttl: int, w: View, o: Outcome)
    requires Coherent(v, now) && (found.Some? ==> found.value in v.db.users) && 0 < ttl
    requires LoginDoes(v, found, password, newId, newHash, now, ttl, w, o)
    ensures Coherent(w, now)
  {
    if o.NewPair? {
      var u := v.db.users[found.value];
      OpenedCoherent(v, newId, NewSession(found.value, newHash, u.tokenVersion, newId, now, ttl), now);
    }
  }

  lemma ReuseCoherent(v: View, sid: Id, now: int, w: View, o: Outcome)
    requires Coherent(v, now) && Named(v.db) && sid in v.db.sessions && ReuseDoes(v, sid, now, w, o)
    ensures Coherent(w, now)
  {
    var uid := v.db.sessions[sid].userId;
    var marked := v.(db := v.db.(sessions := MarkReuseDetected(v.db.sessions, sid, now).0));
    assert Coherent(marked, now);
    var (rows, ok) := BumpTokenVersion(v.db.users, uid);
    if ok { BumpCoherent(marked, rows, uid, RefreshReuse, now); }
  }

  lemma RotateCoherent(v: View, sid: Id, newId: Id, newHash: Id, now: int, ttl: int, w: View, o: Outcome)
    requires Coherent(v, now) && Named(v.db) && sid in v.db.sessions && v.db.sessions[sid].userId in v.db.users
    requires 0 < ttl && RotateDoes(v, sid, newId, newHash, now, ttl, w, o)
    ensures Coherent(w, now)
  {
    var row := v.db.sessions[sid];
    var u := v.db.users[row.userId];
    var r := NewSession(row.userId, newHash, u.tokenVersion, row.familyId, now, ttl);
    if o.NewPair? {
      RotatedCoherent(v, sid, newId, now);
      var marked := v.(db := v.db.(sessions := v.db.sessions[sid := RotatedRow(row, newId, now)]),
                       statuses := SetStatus(v.statuses, sid, Rotated, row.expiresAt, now));
      OpenedCoherent(marked, newId, r, now);
    }
  }

  lemma LogoutCoherent(v: View, token: Option<Claims>, found: Option<Id>, now: int, w: View)
    requires Coherent(v, now) && (found.Some? ==> found.value in v.db.sessions) && LogoutDoes(v, token, found, now, w)
    ensures Coherent(w, now)
  {
    var v1 := if token.Some? then Checked(v, token.value, now) else v;
    if token.Some? {
      CheckedCoherent(v, token.value, now);
      RevokeSessionCoherent(v1, token.value.sessionId, now);
    }
    if found.Some? {
      RevokeSessionCoherent(v1, found.value, now);
      if token.Some? { RevokeSessionCoherent(RevokeSession(v1, token.value.sessionId, now), found.value, now); }
    }
  }

  lemma UpdateCoherent(v: View, uid: Id, email: Option<Id>, role: Option<Role>, isActive: Option<bool>, now: int, w: View, o: Outcome)
    requires Coherent(v, now) && Named(v.db) && UpdateDoes(v, uid, email, role, isActive, now, w, o)
    ensures Coherent(w, now)
  {
    if o == Completed {
      var before := v.db.users[uid];
      var after := Edited(before, email, role, isActive);
      var reason := if before.isActive && !after.isActive then UserDisabled else SecurityChanged;
      BumpCoherent(v, UpdateAndBump(v.db.users, uid, after.email, after.role, after.isActive).0, uid, reason, now);
    }
  }

  lemma DoesCoherent(v: View, op: Op, now: int, ttl: int, w: View, o: Outcome)
    requires Coherent(v, now) && Named(v.db) && 0 < ttl && Does(v, op, now, ttl, w, o)
    ensures Coherent(w, now)
  {
    match op
    case Login(_, found, password, newId, newHash) => LoginCoherent(v, found, password, newId, newHash, now, ttl, w, o);
    case Refresh(hash, found, newId, newHash) =>
      if found.Some? && v.db.sessions[found.value].status == Rotated && hash != NO_ID { ReuseCoherent(v, found.value, now, w, o); }
      else if o != Rejected { RotateCoherent(v, found.value, newId, newHash, now, ttl, w, o); }
    case CheckToken(c) => CheckedCoherent(v, c, now);
    case Logout(token, _, found) => LogoutCoherent(v, token, found, now, w);
    case ChangePassword(uid, _, newPassword) =>
      if o == Completed { BumpCoherent(v, UpdatePasswordAndBump(v.db.users, uid, newPassword).0, uid, PasswordChanged, now); }
    case UpdateUser(uid, email, role, isActive) => UpdateCoherent(v, uid, email, role, isActive, now, w, o);
    case DeleteUser(_) =>
    case CreateUser(_, _) =>
  }

  // ---------- whole runs ----------

  // Identifiers are generated, so never empty.
  predicate NamesGiven(op: Op) {
    match op
    case Login(_, _, _, newId, _) => newId != NO_ID
    case Refresh(_, _, newId, _) => newId != NO_ID
    case CreateUser(uid, _) => uid != NO_ID
    case _ => true
  }

  // A run of whole operations, one after the other, over any rows and empty caches.
  ghost predicate IsRun(views: seq<View>, ops: seq<Op>, times: seq<int>, outcomes: seq<Outcome>, ttl: int) {
    && |views| == |ops| + 1 && |times| == |outcomes| == |ops|
    && RowsPlain(views[0].db.sessions) && Named(views[0].db)
    && views[0].versions == map[] && views[0].statuses == map[]
    && (forall i, j | 0 <= i < j < |times| :: times[i] <= times[j])
    && (forall i | 0 <= i < |ops| ::
          NamesGiven(ops[i]) && Does(views[i], ops[i], times[i], ttl, views[i + 1], outcomes[i]))
  }

  lemma DoesNamed(v: View, op: Op, now: int, ttl: int, w: View, o: Outcome)
    requires Named(v.db) && NamesGiven(op) && Does(v, op, now, ttl, w, o)
    ensures Named(w.db)
  {
  }

  lemma {:induction false} RunCoherent(views: seq<View>, ops: seq<Op>, times: seq<int>, outcomes: seq<Outcome>, ttl: int, i: nat, now: int)
    requires IsRun(views, ops, times, outcomes, ttl) && 0 < ttl && i < |views|
    requires i > 0 ==> times[i - 1] <= now
    ensures Coherent(views[i], now) && Named(views[i].db)
  {
    if i == 0 {
    } else {
      RunCoherent(views, ops, times, outcomes, ttl, i - 1, times[i - 1]);
      DoesCoherent(views[i - 1], ops[i - 1], times[i - 1], ttl, views[i], outcomes[i - 1]);
      DoesNamed(views[i - 1], ops[i - 1], times[i - 1], ttl, views[i], outcomes[i - 1]);
      TimePasses(views[i], times[i - 1], now);
    }
  }

  // At every moment of every run the caches give any token of a user that is not soft-deleted
  // exactly the verdict the database alone would give.
  lemma CachesNeverChangeAVerdict(views: seq<View>, ops: seq<Op>, times: seq<int>, outcomes: seq<Outcome>, ttl: int, i: nat, now: int, c: Claims)
    requires IsRun(views, ops, times, outcomes, ttl) && 0 < ttl && i < |views|
    requires i > 0 ==> times[i - 1] <= now
    requires c.userId in views[i].db.users ==> !views[i].db.users[c.userId].deleted
    ensures Check(views[i], c, now) == CheckStored(views[i].db, c, now)
  {
    RunCoherent(views, ops, times, outcomes, ttl, i, now);
    CheckAgreesUnlessDeleted(views[i], c, now);
  }

  function Bare(v: View): View {
    v.(versions := map[], statuses := map[])
  }

  // A token whose check the caches may still answer although its user is gone.
  predicate Ghostly(v: View, c: Claims) {
    c.userId in v.versions && c.userId in v.db.users && v.db.users[c.userId].deleted
  }

  // Refinement: with caches an operation writes the same rows and gives the same answer as without any.
  lemma SameRowsWithoutCaches(v: View, op: Op, now: int, ttl: int, w: View, o: Outcome) returns (bare: View)
    requires Coherent(v, now) && Does(v, op, now, ttl, w, o)
    requires op.CheckToken? ==> !Ghostly(v, op.claims)
    requires op.Logout? && op.token.Some? ==> !Ghostly(v, op.token.value)
    ensures Does(Bare(v), op, now, ttl, bare, o) && bare.db == w.db
  {
    match op
    case Login(_, found, _, newId, newHash) =>
      if o.NewPair? {
        var u := v.db.users[found.value];
        bare := Opened(Bare(v), w.db.sessions, newId, NewSession(found.value, newHash, u.tokenVersion, newId, now, ttl), now);
      } else { bare := Bare(v); }
    case Refresh(hash, found, newId, newHash) =>
      bare := RefreshWithoutCaches(v, hash, found, newId, newHash, now, ttl, w, o);
    case CheckToken(c) =>
      CheckAgreesUnlessDeleted(v, c, now);
      bare := Checked(Bare(v), c, now);
    case Logout(token, _, found) =>
      bare := LogoutWithoutCaches(v, token, found, now, w);
    case ChangePassword(uid, _, newPassword) =>
      bare := if o == Completed
              then AfterBump(Bare(v), UpdatePasswordAndBump(v.db.users, uid, newPassword).0, uid, PasswordChanged, now) else Bare(v);
    case UpdateUser(uid, email, role, isActive) =>
      bare := UpdateWithoutCaches(v, uid, email, role, isActive, now, w, o);
    case DeleteUser(_) => bare := Bare(w);
    case CreateUser(_, _) => bare := Bare(w);
  }

  lemma RefreshWithoutCaches(v: View, hash: Id, found: Option<Id>, newId: Id, newHash: Id, now: int, ttl: int, w: View, o: Outcome)
    returns (bare: View)
    requires (found.Some? ==> found.value in v.db.sessions) && RefreshDoes(v, hash, found, newId, newHash, now, ttl, w, o)
    ensures RefreshDoes(Bare(v), hash, found, newId, newHash, now, ttl, bare, o) && bare.db == w.db
  {
    if hash == NO_ID || found.None? {
      bare := Bare(v);
    } else if v.db.sessions[found.value].status == Rotated {
      var uid := v.db.sessions[found.value].userId;
      var marked := v.db.(sessions := MarkReuseDetected(v.db.sessions, found.value, now).0);
      var (rows, ok) := BumpTokenVersion(v.db.users, uid);
      bare := if ok then AfterBump(Bare(v).(db := marked), rows, uid, RefreshReuse, now) else Bare(v).(db := marked);
    } else if o.NewPair? {
      var row := v.db.sessions[found.value];
      var r := NewSession(row.userId, newHash, v.db.users[row.userId].tokenVersion, row.familyId, now, ttl);
      bare := Opened(Bare(v).(statuses := SetStatus(map[], found.value, Rotated, row.expiresAt, now)), w.db.sessions, newId, r, now);
    } else {
      bare := Bare(v);
    }
  }

  lemma LogoutWithoutCaches(v: View, token: Option<Claims>, found: Option<Id>, now: int, w: View) returns (bare: View)
    requires Coherent(v, now) && (token.Some? ==> !Ghostly(v, token.value))
    requires (found.Some? ==> found.value in v.db.sessions) && LogoutDoes(v, token, found, now, w)
    ensures LogoutDoes(Bare(v), token, found, now, bare) && bare.db == w.db
  {
    bare := Bare(v);
    if token.Some? {
      CheckAgreesUnlessDeleted(v, token.value, now);
      assert Coherent(Bare(v), now);
      CheckAgreesUnlessDeleted(Bare(v), token.value, now);
      bare := Checked(bare, token.value, now);
      if Check(v, token.value, now) == Accepted { bare := RevokeSession(bare, token.value.sessionId, now); }
    }
    if found.Some? { bare := RevokeSession(bare, found.value, now); }
  }

  lemma UpdateWithoutCaches(v: View, uid: Id, email: Option<Id>, role: Option<Role>, isActive: Option<bool>, now: int, w: View, o: Outcome)
    returns (bare: View)
    requires UpdateDoes(v, uid, email, role, isActive, now, w, o)
    ensures UpdateDoes(Bare(v), uid, email, role, isActive, now, bare, o) && bare.db == w.db
  {
    bare := Bare(w);
    if o == Completed {
      var before := v.db.users[uid];
      var after := Edited(before, email, role, isActive);
      var reason := if before.isActive && !after.isActive then UserDisabled else SecurityChanged;
      if MustRevoke(before, after) {
        bare := AfterBump(Bare(v), UpdateAndBump(v.db.users, uid, after.email, after.role, after.isActive).0, uid, reason, now);
      }
    }
  }

  // The caches rely on a positive refresh lifetime: right after a login the new token's cached verdict
  // is the stored verdict if and only if sessions live for some time at all.
  lemma FreshTokenAgreesIffLifetimePositive(v: View, uid: Id, newId: Id, newHash: Id, now: int, ttl: int, w: View, o: Outcome)
    requires uid in v.db.users && !v.db.users[uid].deleted && uid != NO_ID && newId != NO_ID
    requires LoginDoes(v, Some(uid), v.db.users[uid].password, newId, newHash, now, ttl, w, o) && o.NewPair?
    ensures Check(w, o.claims, now) == CheckStored(w.db, o.claims, now) <==> 0 < ttl
  {
  }

  // A run after which a deleted user is still let in: one logs in, is deleted, and goes on with the token just issued.
  lemma DeletedUserIsStillLetIn() returns (views: seq<View>, ops: seq<Op>, outcomes: seq<Outcome>, c: Claims)
    ensures IsRun(views, ops, [0, 0], outcomes, 60) && |views| == 3
    ensures ops[0].Login? && outcomes[0] == NewPair(c, c.sessionId) && ops[1] == DeleteUser(c.userId)
    ensures Check(views[2], c, 0) == Accepted && CheckStored(views[2].db, c, 0) == UserMissing
  {
    var u := User(7, 8, 9, Readonly, true, false, 1, false);
    var r := NewSession(1, 3, 1, 2, 0, 60);
    var v0 := View(Db(map[1 := u], map[]), map[], map[]);
    var v1 := Opened(v0, map[2 := r], 2, r, 0);
    var v2 := v1.(db := v1.db.(users := map[1 := u.(deleted := true)]));
    c := ClaimsFor(1, 2, u);
    views := [v0, v1, v2];
    ops := [Login(7, Some(1), 8, 2, 3), DeleteUser(1)];
    outcomes := [NewPair(c, 2), Completed];
    assert CreateSession(v0.db.sessions, 2, r) == (map[2 := r], true);
    assert Does(v0, ops[0], 0, 60, v1, outcomes[0]);
    assert v1.db.users[1 := u.(deleted := true)] == v2.db.users;
    assert Does(v1, ops[1], 0, 60, v2, outcomes[1]);
  }
}
