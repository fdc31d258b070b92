/** Every step of every request keeps the invariant. */
module AuthSteps {
  import opened Options
  import opened AuthEntities
  import opened RowUpdates
  import opened AuthProtocol
  import opened AuthInvariants

  // ---------- steps that only move the request ----------

  // The step changed nothing but the position of request `tid`.
  predicate MovesOnly(s: State, t: State, tid: Id) {
    && tid in t.threads && t == At(s, tid, t.threads[tid])
    && (tid in s.threads ==> !s.threads[tid].Finished?)
  }

  lemma MoveKeeps(s: State, t: State, tid: Id)
    requires s in SAFE && MovesOnly(s, t, tid) && ThreadOk(t, tid)
    ensures t in Next(s, tid)
  {
    assert t in Moves(s, tid);
    assert t in STORED;
    Assemble(s, t, tid);
  }

  predicate IsQuiet(th: Thread) {
    match th
    case Finished(outcome) => outcome == Rejected || outcome == StorageError || outcome == Completed
    case LogoutRevoke(_, _) => true
    case LogoutByHash(_) => true
    case _ => false
  }

  // Moving to a position about which nothing needs to be known.
  lemma QuietMoveKeeps(s: State, tid: Id, th: Thread)
    requires s in SAFE && IsQuiet(th) && (tid in s.threads ==> !s.threads[tid].Finished?)
    ensures At(s, tid, th) in Next(s, tid)
  {
    MoveKeeps(s, At(s, tid, th), tid);
  }

  // What a request learns by reading is known to hold.
  lemma LookupKeeps(s: State, tid: Id, found: Option<Id>, hash: Id)
    requires s in SAFE && tid in s.threads && !s.threads[tid].Finished? && FoundByHash(s.sessions, hash, found)
    ensures At(s, tid, AfterLookup(s.sessions, found, hash, s.now)) in Next(s, tid)
  {
    MoveKeeps(s, At(s, tid, AfterLookup(s.sessions, found, hash, s.now)), tid);
  }

  lemma LostKeeps(s: State, tid: Id, sid: Id, uid: Id, at: int)
    requires s in SAFE && tid in s.threads && s.threads[tid] == RefreshLost(sid, uid, at)
    ensures At(s, tid, AfterLost(s.sessions, sid, uid, at)) in Next(s, tid)
  {
    KnowThread(s, tid);
    MoveKeeps(s, At(s, tid, AfterLost(s.sessions, sid, uid, at)), tid);
  }

  lemma CheckKeeps(s: State, tid: Id, c: Claims, goal: Goal, th: Thread)
    requires s in SAFE && tid in s.threads
    requires s.threads[tid] == CheckVersion(c, goal) || s.threads[tid] == CheckStatus(c, goal)
    requires th == CheckStatus(c, goal) || th == Granted(c, goal) || th == Denied(goal)
    ensures At(s, tid, th) in Next(s, tid)
  {
    KnowThread(s, tid);
    MoveKeeps(s, At(s, tid, th), tid);
  }

  lemma PasswordReadKeeps(s: State, tid: Id, uid: Id, oldPassword: Id, newPassword: Id)
    requires s in SAFE && tid in s.threads && !s.threads[tid].Finished?
    ensures At(s, tid, AfterPasswordRead(s.users, uid, oldPassword, newPassword)) in Next(s, tid)
  {
    MoveKeeps(s, At(s, tid, AfterPasswordRead(s.users, uid, oldPassword, newPassword)), tid);
  }

  // ---------- signing tokens ----------

  lemma FreshIsUnused(s: State, newId: Id, newHash: Id)
    requires s in SAFE && Fresh(s, newId, newHash)
    ensures newId !in s.sessions
    ensures forall sid | sid in s.sessions :: s.sessions[sid].refreshHash != newHash
    ensures forall c | c in s.minted :: c.sessionId != newId
  {
    forall sid | sid in s.sessions
      ensures sid != newId && s.sessions[sid].refreshHash != newHash
    {
      assert SessionOk(s.users, s.owner, s.sessions, sid);
    }
  }

  // Signing a token for an active user's current row, under fresh identifiers.
  lemma MintKeeps(s: State, t: State, tid: Id, c: Claims, hash: Id)
    requires s in SAFE && tid in s.threads && !s.threads[tid].Finished?
    requires Fresh(s, c.sessionId, hash)
    requires c.userId in s.users && s.users[c.userId].isActive && c == ClaimsFor(c.userId, c.sessionId, s.users[c.userId])
    requires tid in t.threads && t == At(Mint(s, tid, c, hash), tid, t.threads[tid])
    requires ThreadOk(t, tid)
    ensures t in Next(s, tid)
  {
    assert t in STORED by {
      FreshIsUnused(s, c.sessionId, hash);
      OwnersGrow(s.users, s.owner, t.owner, s.sessions);
    }
    assert t in Moves(s, tid);
    Assemble(s, t, tid);
  }

  lemma OwnersGrow(users: Users, owner: map<Id, Id>, grown: map<Id, Id>, rows: Sessions)
    requires SessionsOk(users, owner, rows) && owner.Keys <= grown.Keys
    ensures SessionsOk(users, grown, rows)
  {
    forall sid | sid in rows
      ensures SessionOk(users, grown, rows, sid)
    {
      assert SessionOk(users, owner, rows, sid);
    }
  }

  // A new session of the signed token's user and version is ready to be stored.
  lemma MintPrepares(s: State, t: State, tid: Id, c: Claims, r: Session, th: Thread)
    requires s in SAFE && Fresh(s, c.sessionId, r.refreshHash)
    requires c.userId in s.users && c.tokenVersion == s.users[c.userId].tokenVersion
    requires r.userId == c.userId && r.tokenVersion == c.tokenVersion
    requires r.status == Active && r.replacedBy.None? && r.idleExpiresAt.None?
    requires t == At(Mint(s, tid, c, r.refreshHash), tid, th)
    ensures Prepared(t, tid, c.sessionId, r)
  {
    FreshIsUnused(s, c.sessionId, r.refreshHash);
  }

  lemma MintLoginKeeps(s: State, tid: Id, uid: Id, newId: Id, newHash: Id)
    requires s in SAFE && tid in s.threads && !s.threads[tid].Finished? && Fresh(s, newId, newHash)
    requires uid in s.users && s.users[uid].isActive
    ensures MintLogin(s, tid, uid, newId, newHash) in Next(s, tid)
  {
    var t, c := MintLogin(s, tid, uid, newId, newHash), ClaimsFor(uid, newId, s.users[uid]);
    MintPrepares(s, t, tid, c, t.threads[tid].session, t.threads[tid]);
    MintKeeps(s, t, tid, c, newHash);
  }

  lemma MintRefreshKeeps(s: State, tid: Id, sid: Id, seen: Session, at: int, newId: Id, newHash: Id)
    requires s in SAFE && tid in s.threads && s.threads[tid] == RefreshUser(sid, seen, at) && Fresh(s, newId, newHash)
    requires seen.userId in s.users && s.users[seen.userId].isActive
    ensures MintRefresh(s, tid, sid, seen, at, newId, newHash) in Next(s, tid)
  {
    var t, c := MintRefresh(s, tid, sid, seen, at, newId, newHash), ClaimsFor(seen.userId, newId, s.users[seen.userId]);
    KnowThread(s, tid);
    MintPrepares(s, t, tid, c, t.threads[tid].session, t.threads[tid]);
    MintKeeps(s, t, tid, c, newHash);
  }

  // ---------- storing a session ----------

  // Rows that keep their identity, plus one new row.
  predicate RowsGrow(a: Sessions, b: Sessions, newId: Id, r: Session) {
    && newId !in a && b.Keys == a.Keys + {newId} && b[newId] == r
    && (forall sid | sid in a ::
          && SessionEvolves(a[sid], b[sid]) && b[sid].status != Expired
          && (b[sid].status == Active ==> b[sid].replacedBy.None?))
    && r.familyId in b && b[r.familyId].familyId == r.familyId
  }

  lemma GrownRowsOk(users: Users, owner: map<Id, Id>, a: Sessions, b: Sessions, newId: Id, r: Session)
    requires SessionsOk(users, owner, a) && RowsGrow(a, b, newId, r)
    requires newId in owner && r.refreshHash in owner && r.userId in users && r.tokenVersion <= users[r.userId].tokenVersion
    requires r.status == Active && r.replacedBy.None? && r.idleExpiresAt.None?
    requires forall sid | sid in a :: a[sid].refreshHash != r.refreshHash
    ensures SessionsOk(users, owner, b)
  {
    forall sid | sid in b
      ensures SessionOk(users, owner, b, sid)
    {
      if sid in a { assert SessionOk(users, owner, a, sid); }
    }
  }

  lemma StoredTokensOk(minted: set<Claims>, owner: map<Id, Id>, a: Sessions, b: Sessions, newId: Id, r: Session)
    requires TokenSessionsOk(minted, owner, a) && RowsGrow(a, b, newId, r)
    requires forall c | c in minted && c.sessionId == newId :: Describes(c, r)
    ensures TokenSessionsOk(minted, owner, b)
  {
  }

  lemma RowFacts(users: Users, owner: map<Id, Id>, rows: Sessions)
    requires SessionsOk(users, owner, rows)
    ensures forall x | x in rows ::
              && rows[x].familyId in rows && rows[rows[x].familyId].familyId == rows[x].familyId
              && rows[x].status != Expired && (rows[x].status == Active ==> rows[x].replacedBy.None?)
  {
    forall x | x in rows
      ensures rows[x].familyId in rows && rows[rows[x].familyId].familyId == rows[x].familyId
      ensures rows[x].status != Expired && (rows[x].status == Active ==> rows[x].replacedBy.None?)
    {
      assert SessionOk(users, owner, rows, x);
    }
  }

  // The rows a request stores are `b`; everything else it changes is its own position.
  lemma StoreMoves(s: State, t: State, tid: Id, newId: Id, r: Session)
    requires tid in s.threads && !s.threads[tid].Finished? && Prepared(s, tid, newId, r)
    requires tid in t.threads && t == At(s.(sessions := t.sessions), tid, t.threads[tid])
    requires RowsGrow(s.sessions, t.sessions, newId, r)
    ensures t in Moves(s, tid)
  {
  }

  lemma StoreStored(s: State, t: State)
    requires s in SAFE && t == s.(sessions := t.sessions, threads := t.threads)
    requires SessionsOk(s.users, s.owner, t.sessions) && TokenSessionsOk(s.minted, s.owner, t.sessions)
    requires ChainsOk(t.sessions)
    requires forall sid | sid in s.sessions :: sid in t.sessions && SessionEvolves(s.sessions[sid], t.sessions[sid])
    ensures t in STORED
  {
    forall sid | sid in t.burner
      ensures sid in t.sessions && t.sessions[sid].status == Revoked
    {
      assert SessionOk(t.users, t.owner, t.sessions, sid);
    }
  }

  lemma CreateKeeps(s: State, tid: Id, newId: Id, r: Session)
    requires s in SAFE && tid in s.threads && s.threads[tid] == LoginCreate(newId, r)
    ensures RunCreate(s, tid, newId, r) in Next(s, tid)
  {
    var t := RunCreate(s, tid, newId, r);
    KnowThread(s, tid);
    if Conflicts(s.sessions, newId, r) {
      MoveKeeps(s, t, tid);
    } else {
      LoginRowsOk(s, newId, r, tid);
      StoreMoves(s, t, tid, newId, r);
      StoreStored(s, t);
      Assemble(s, t, tid);
    }
  }

  lemma LoginRowsOk(s: State, newId: Id, r: Session, tid: Id)
    requires s in SAFE && Prepared(s, tid, newId, r) && r.familyId == newId
    ensures var b := s.sessions[newId := r];
            && RowsGrow(s.sessions, b, newId, r)
            && SessionsOk(s.users, s.owner, b) && TokenSessionsOk(s.minted, s.owner, b) && ChainsOk(b)
  {
    var b := s.sessions[newId := r];
    RowFacts(s.users, s.owner, s.sessions);
    assert RowsGrow(s.sessions, b, newId, r);
    GrownRowsOk(s.users, s.owner, s.sessions, b, newId, r);
    StoredTokensOk(s.minted, s.owner, s.sessions, b, newId, r);
    ChainsSurviveLogin(s.sessions, newId, r);
  }

  lemma RotateKeeps(s: State, tid: Id, sid: Id, seen: Session, newId: Id, r: Session, at: int)
    requires s in SAFE && tid in s.threads && s.threads[tid] == RefreshRotate(sid, seen, newId, r, at)
    ensures RunRotate(s, tid, sid, seen, newId, r, at) in Next(s, tid)
  {
    var t := RunRotate(s, tid, sid, seen, newId, r, at);
    KnowThread(s, tid);
    if Rotate(s.sessions, sid, seen.refreshHash, newId, r, at).1 == Done {
      RotateDoneKeeps(s, t, tid, sid, newId, r, at);
    } else {
      MoveKeeps(s, t, tid);
    }
  }

  function RotatedRows(rows: Sessions, sid: Id, newId: Id, r: Session, at: int): Sessions
    requires sid in rows
  {
    rows[sid := RotatedRow(rows[sid], newId, at)][newId := r]
  }

  lemma RotateDoneKeeps(s: State, t: State, tid: Id, sid: Id, newId: Id, r: Session, at: int)
    requires s in SAFE && Prepared(s, tid, newId, r) && sid in s.sessions && s.sessions[sid].status == Active
    requires r.familyId == s.sessions[sid].familyId && r.userId == s.sessions[sid].userId
    requires tid in s.threads && !s.threads[tid].Finished?
    requires t == At(s.(sessions := RotatedRows(s.sessions, sid, newId, r, at)), tid, Finished(NewPair(newId, Some(sid))))
    ensures t in Next(s, tid)
  {
    RotatedRowsOk(s.users, s.owner, s.sessions, t.sessions, sid, newId, r, at);
    StoredTokensOk(s.minted, s.owner, s.sessions, t.sessions, newId, r);
    StoreMoves(s, t, tid, newId, r);
    StoreStored(s, t);
    Assemble(s, t, tid);
  }

  lemma RotatedRowsOk(users: Users, owner: map<Id, Id>, a: Sessions, b: Sessions, sid: Id, newId: Id, r: Session, at: int)
    requires SessionsOk(users, owner, a) && ChainsOk(a) && sid in a && a[sid].status == Active && newId !in a
    requires b == RotatedRows(a, sid, newId, r, at)
    requires newId in owner && r.refreshHash in owner && r.userId in users && r.tokenVersion <= users[r.userId].tokenVersion
    requires r.status == Active && r.replacedBy.None? && r.idleExpiresAt.None?
    requires forall x | x in a :: a[x].refreshHash != r.refreshHash
    requires r.familyId == a[sid].familyId && r.userId == a[sid].userId
    ensures RowsGrow(a, b, newId, r) && SessionsOk(users, owner, b) && ChainsOk(b)
  {
    RowFacts(users, owner, a);
    assert RowsGrow(a, b, newId, r);
    GrownRowsOk(users, owner, a, b, newId, r);
    ChainsSurviveRotation(a, sid, b, newId);
  }

  // ---------- revoking sessions ----------

  predicate SameOrRevoked(a: Session, b: Session) {
    b == a || (b.revokedAt.Some? && b == Revoke(a, b.revokeReason, b.revokedAt.value))
  }

  ghost predicate OnlyRevokes(a: Sessions, b: Sessions) {
    a.Keys == b.Keys && forall sid {:trigger b[sid]} | sid in a :: SameOrRevoked(a[sid], b[sid])
  }

  lemma RevokedRowsOk(users: Users, owner: map<Id, Id>, a: Sessions, b: Sessions)
    requires SessionsOk(users, owner, a) && OnlyRevokes(a, b)
    ensures SessionsOk(users, owner, b) && LinksKept(a, b)
    ensures forall sid | sid in a :: SessionEvolves(a[sid], b[sid]) && (a[sid].status == Revoked ==> b[sid].status == Revoked)
  {
    forall sid | sid in b
      ensures SessionOk(users, owner, b, sid) && SessionEvolves(a[sid], b[sid])
    {
      assert SessionOk(users, owner, a, sid) && SameOrRevoked(a[sid], b[sid]);
    }
  }

  // Sessions are revoked, and a request may become the burner of one of them.
  predicate RevokesTo(s: State, t: State, tid: Id) {
    && tid in s.threads && !s.threads[tid].Finished? && tid in t.threads
    && t == At(s.(sessions := t.sessions, burner := t.burner), tid, t.threads[tid])
  }

  ghost predicate BurnersGrow(a: map<Id, Id>, b: map<Id, Id>, rows: Sessions) {
    && (forall sid | sid in a :: sid in b && b[sid] == a[sid])
    && (forall sid | sid in b && sid !in a :: sid in rows && rows[sid].status == Revoked)
  }

  lemma RevokeKeeps(s: State, t: State, tid: Id)
    requires s in SAFE && RevokesTo(s, t, tid)
    requires OnlyRevokes(s.sessions, t.sessions) && BurnersGrow(s.burner, t.burner, t.sessions)
    requires ThreadOk(t, tid)
    ensures t in Next(s, tid)
  {
    RevokedRowsOk(s.users, s.owner, s.sessions, t.sessions);
    RevokeStored(s, t, tid);
    assert t in Moves(s, tid);
    Assemble(s, t, tid);
  }

  lemma RevokeStored(s: State, t: State, tid: Id)
    requires s in SAFE && RevokesTo(s, t, tid)
    requires OnlyRevokes(s.sessions, t.sessions) && BurnersGrow(s.burner, t.burner, t.sessions)
    ensures t in STORED
  {
    RevokedRowsOk(s.users, s.owner, s.sessions, t.sessions);
    ChainsSurviveRevocation(s.sessions, t.sessions);
    assert TokenSessionsOk(t.minted, t.owner, t.sessions);
  }

  lemma MarkReuseKeeps(s: State, tid: Id, sid: Id, uid: Id, at: int)
    requires s in SAFE && tid in s.threads && s.threads[tid] == MarkReuse(sid, uid, at)
    ensures RunMarkReuse(s, tid, sid, uid, at) in Next(s, tid)
  {
    var t := RunMarkReuse(s, tid, sid, uid, at);
    KnowThread(s, tid);
    if t.sessions == s.sessions {
      MoveKeeps(s, t, tid);
    } else {
      assert sid !in s.burner && sid !in SetOf(s.burned, uid);
      RevokeKeeps(s, t, tid);
    }
  }

  lemma RevokeAllKeeps(s: State, tid: Id, uid: Id, reason: Reason, outcome: Outcome)
    requires s in SAFE && tid in s.threads && s.threads[tid] == RevokeAll(uid, reason, outcome)
    ensures RunRevokeAll(s, tid, uid, reason, outcome) in Next(s, tid)
  {
    KnowThread(s, tid);
    RevokeKeeps(s, RunRevokeAll(s, tid, uid, reason, outcome), tid);
  }

  lemma LogoutRevokeKeeps(s: State, tid: Id, sid: Id, refresh: Option<Id>)
    requires s in SAFE && tid in s.threads && s.threads[tid] == LogoutRevoke(sid, refresh)
    ensures RunLogoutRevoke(s, tid, sid, refresh) in Next(s, tid)
  {
    RevokeKeeps(s, RunLogoutRevoke(s, tid, sid, refresh), tid);
  }

  // ---------- writing a user ----------

  // The row of one user is written; whenever role or activity change the version grows.
  predicate UserWritten(a: Users, b: Users, uid: Id) {
    && uid in a && uid in b && b == a[uid := b[uid]]
    && UserEvolves(a[uid], b[uid])
    && (b[uid].tokenVersion == a[uid].tokenVersion ==>
          b[uid].role == a[uid].role && (a[uid].isActive ==> b[uid].isActive))
  }

  lemma WrittenUserOk(a: Users, b: Users, uid: Id, minted: set<Claims>, owner: map<Id, Id>, rows: Sessions)
    requires UserWritten(a, b, uid) && TokensOk(a, minted) && SessionsOk(a, owner, rows)
    ensures TokensOk(b, minted) && SessionsOk(b, owner, rows)
  {
    forall sid | sid in rows
      ensures SessionOk(b, owner, rows, sid)
    {
      assert SessionOk(a, owner, rows, sid);
    }
  }

  // A user row and the record of why it changed are written; a request moves, or one that is not there yet starts.
  predicate WritesTo(s: State, t: State, tid: Id) {
    && t == s.(users := t.users, threads := t.threads, burned := t.burned,
               passwordChanges := t.passwordChanges, securityUpdates := t.securityUpdates)
    && (tid in s.threads ==> !s.threads[tid].Finished? && tid in t.threads)
    && t.threads == if tid in t.threads then s.threads[tid := t.threads[tid]] else s.threads
  }

  ghost predicate BurnsBy(a: map<Id, set<Id>>, b: map<Id, set<Id>>, burner: map<Id, Id>, tid: Id) {
    forall u, sid | u in b && sid in b[u] && sid !in SetOf(a, u) :: sid in burner && burner[sid] == tid
  }

  lemma UserWriteStored(s: State, t: State, tid: Id, uid: Id)
    requires s in SAFE && WritesTo(s, t, tid) && UserWritten(s.users, t.users, uid)
    requires UsersOk(t.users, t.burned, t.passwordChanges, t.securityUpdates)
    requires BurnsOk(t.sessions, t.burner, t.burned)
    ensures t in STORED
  {
    WrittenUserOk(s.users, t.users, uid, s.minted, s.owner, s.sessions);
  }

  lemma UserWriteMoves(s: State, t: State, tid: Id, uid: Id)
    requires WritesTo(s, t, tid) && UserWritten(s.users, t.users, uid)
    requires BurnsBy(s.burned, t.burned, s.burner, tid)
    ensures t in Moves(s, tid)
  {
  }

  lemma UserWriteKeeps(s: State, t: State, tid: Id, uid: Id)
    requires s in SAFE && WritesTo(s, t, tid) && UserWritten(s.users, t.users, uid) && t in STORED
    requires BurnsBy(s.burned, t.burned, s.burner, tid)
    requires tid in t.threads ==> ThreadOk(t, tid)
    ensures t in Next(s, tid)
  {
    UserWriteMoves(s, t, tid, uid);
    Assemble(s, t, tid);
  }

  function Bumped(rows: Users, uid: Id): Users
    requires uid in rows
  {
    rows[uid := rows[uid].(tokenVersion := rows[uid].tokenVersion + 1)]
  }

  function MoreBurned(burned: map<Id, set<Id>>, uid: Id, sid: Id): map<Id, set<Id>> {
    burned[uid := SetOf(burned, uid) + {sid}]
  }

  lemma BurnCounted(users: Users, burned: map<Id, set<Id>>, passwords: map<Id, nat>, security: map<Id, nat>, sid: Id, uid: Id)
    requires UsersOk(users, burned, passwords, security) && uid in users && sid !in SetOf(burned, uid)
    ensures UsersOk(Bumped(users, uid), MoreBurned(burned, uid, sid), passwords, security)
  {
    var grown := MoreBurned(burned, uid, sid);
    forall x | x in users && x != uid
      ensures SetOf(grown, x) == SetOf(burned, x)
    {
    }
  }

  lemma BurnRecorded(rows: Sessions, burner: map<Id, Id>, burned: map<Id, set<Id>>, sid: Id, uid: Id)
    requires BurnsOk(rows, burner, burned) && sid in burner && rows[sid].userId == uid
    ensures BurnsOk(rows, burner, MoreBurned(burned, uid, sid))
  {
  }

  lemma BurnKeeps(s: State, tid: Id, sid: Id, uid: Id)
    requires s in SAFE && tid in s.threads && s.threads[tid] == Burn(sid, uid)
    ensures RunBurn(s, tid, sid, uid) in Next(s, tid)
  {
    KnowThread(s, tid);
    if FindUser(s.users, uid).None? {
      QuietMoveKeeps(s, tid, Finished(StorageError));
    } else {
      BurnDoneKeeps(s, tid, sid, uid);
    }
  }

  // The state right after a reuse bumped the user's version.
  function BurnDone(s: State, tid: Id, sid: Id, uid: Id): State
    requires uid in s.users
  {
    At(s.(users := Bumped(s.users, uid), burned := MoreBurned(s.burned, uid, sid)), tid,
       RevokeAll(uid, RefreshReuse, Rejected))
  }

  lemma BurnDoneStored(s: State, tid: Id, sid: Id, uid: Id)
    requires s in SAFE && uid in s.users && !s.users[uid].deleted
    requires tid in s.threads && !s.threads[tid].Finished?
    requires sid in s.burner && OwnSession(s, sid, uid) && sid !in SetOf(s.burned, uid)
    ensures BurnDone(s, tid, sid, uid) in STORED
  {
    BurnCounted(s.users, s.burned, s.passwordChanges, s.securityUpdates, sid, uid);
    BurnRecorded(s.sessions, s.burner, s.burned, sid, uid);
    UserWriteStored(s, BurnDone(s, tid, sid, uid), tid, uid);
  }

  lemma BurnDoneKeeps(s: State, tid: Id, sid: Id, uid: Id)
    requires s in SAFE && uid in s.users && !s.users[uid].deleted
    requires tid in s.threads && !s.threads[tid].Finished?
    requires sid in s.burner && s.burner[sid] == tid && OwnSession(s, sid, uid) && sid !in SetOf(s.burned, uid)
    ensures BurnDone(s, tid, sid, uid) in Next(s, tid)
  {
    BurnDoneStored(s, tid, sid, uid);
    UserWriteKeeps(s, BurnDone(s, tid, sid, uid), tid, uid);
  }

  lemma PasswordBumpKeeps(s: State, tid: Id, uid: Id, newPassword: Id)
    requires s in SAFE && tid in s.threads && s.threads[tid] == PasswordBump(uid, newPassword)
    ensures RunPasswordBump(s, tid, uid, newPassword) in Next(s, tid)
  {
    var t := RunPasswordBump(s, tid, uid, newPassword);
    if FindUser(s.users, uid).None? {
      MoveKeeps(s, t, tid);
    } else {
      UserWriteStored(s, t, tid, uid);
      UserWriteKeeps(s, t, tid, uid);
    }
  }

  lemma SecurityEditKeeps(s: State, tid: Id, uid: Id, after: User)
    requires s in SAFE && tid !in s.threads && FindUser(s.users, uid).Some?
    ensures RunSecurityEdit(s, tid, uid, after) in Next(s, tid)
  {
    UserWriteStored(s, RunSecurityEdit(s, tid, uid, after), tid, uid);
    UserWriteKeeps(s, RunSecurityEdit(s, tid, uid, after), tid, uid);
  }

  lemma PlainEditKeeps(s: State, tid: Id, uid: Id, after: User)
    requires s in SAFE && tid !in s.threads && FindUser(s.users, uid).Some?
    requires UserEvolves(s.users[uid], after) && after.tokenVersion == s.users[uid].tokenVersion
    requires after.role == s.users[uid].role && (s.users[uid].isActive ==> after.isActive)
    ensures s.(users := s.users[uid := after]) in Next(s, tid)
  {
    UserWriteStored(s, s.(users := s.users[uid := after]), tid, uid);
    UserWriteKeeps(s, s.(users := s.users[uid := after]), tid, uid);
  }

  lemma UpdateUserKeeps(s: State, tid: Id, uid: Id, email: Option<Id>, role: Option<Role>, isActive: Option<bool>, t: State)
    requires s in SAFE && tid !in s.threads && UpdateStep(s, tid, uid, email, role, isActive, t)
    ensures t in Next(s, tid)
  {
    if !EditAllowed(s.users, uid, email) {
      StayKeeps(s, tid);
    } else {
      var after := Edited(s.users[uid], email, role, isActive);
      if MustRevoke(s.users[uid], after) { SecurityEditKeeps(s, tid, uid, after); }
      else { PlainEditKeeps(s, tid, uid, after); }
    }
  }

  lemma StayKeeps(s: State, tid: Id)
    requires s in SAFE
    ensures s in Next(s, tid)
  {
    assert s in Moves(s, tid);
  }

  lemma DeleteUserKeeps(s: State, uid: Id, tid: Id, t: State)
    requires s in SAFE && tid !in s.threads && DeleteStep(s, uid, t)
    ensures t in Next(s, tid)
  {
    if FindUser(s.users, uid).None? {
      StayKeeps(s, tid);
    } else {
      UserWriteStored(s, t, tid, uid);
      UserWriteKeeps(s, t, tid, uid);
    }
  }

  lemma CreateUserStored(s: State, uid: Id, u: User)
    requires s in SAFE && uid !in s.users && u.tokenVersion == 1
    ensures s.(users := s.users[uid := u]) in STORED
  {
    MoreUsersOk(s.users, s.users[uid := u], s.owner, s.sessions);
  }

  lemma CreateUserKeeps(s: State, uid: Id, u: User, tid: Id)
    requires s in SAFE && uid !in s.users && u.tokenVersion == 1 && tid !in s.threads
    ensures s.(users := s.users[uid := u]) in Next(s, tid)
  {
    var t := s.(users := s.users[uid := u]);
    CreateUserStored(s, uid, u);
    assert t in Moves(s, tid);
    Assemble(s, t, tid);
  }

  lemma MoreUsersOk(a: Users, b: Users, owner: map<Id, Id>, rows: Sessions)
    requires SessionsOk(a, owner, rows) && forall uid | uid in a :: uid in b && b[uid] == a[uid]
    ensures SessionsOk(b, owner, rows)
  {
    forall sid | sid in rows
      ensures SessionOk(b, owner, rows, sid)
    {
      assert SessionOk(a, owner, rows, sid);
    }
  }

  lemma TickKeeps(s: State, to: int, tid: Id)
    requires s in SAFE && s.now <= to && tid !in s.threads
    ensures s.(now := to) in Next(s, tid)
  {
    assert s.(now := to) in Moves(s, tid) && s.(now := to) in STORED;
    Assemble(s, s.(now := to), tid);
  }

  // ---------- all steps together ----------

  lemma RunKeeps(s: State, tid: Id, found: Option<Id>, newId: Id, newHash: Id, t: State)
    requires s in SAFE && Enabled(s, Run(tid, found, newId, newHash)) && RunStep(s, tid, found, newId, newHash, t)
    ensures t in Next(s, tid)
  {
    match s.threads[tid]
    case LoginStart(_, password) =>
      if LoginAccepted(s.users, found, password) { MintLoginKeeps(s, tid, found.value, newId, newHash); }
      else { QuietMoveKeeps(s, tid, Finished(Rejected)); }
    case LoginCreate(id, r) => CreateKeeps(s, tid, id, r);
    case RefreshStart(hash) => LookupKeeps(s, tid, found, hash);
    case RefreshUser(sid, seen, at) =>
      if RefreshAllowed(s.users, seen) { MintRefreshKeeps(s, tid, sid, seen, at, newId, newHash); }
      else { QuietMoveKeeps(s, tid, Finished(Rejected)); }
    case RefreshRotate(sid, seen, id, r, at) => RotateKeeps(s, tid, sid, seen, id, r, at);
    case RefreshLost(sid, uid, at) => LostKeeps(s, tid, sid, uid, at);
    case MarkReuse(sid, uid, at) => MarkReuseKeeps(s, tid, sid, uid, at);
    case Burn(sid, uid) => BurnKeeps(s, tid, sid, uid);
    case RevokeAll(uid, reason, outcome) => RevokeAllKeeps(s, tid, uid, reason, outcome);
    case CheckVersion(c, goal) => CheckKeeps(s, tid, c, goal, AfterVersion(s.users, c, goal));
    case CheckStatus(c, goal) => CheckKeeps(s, tid, c, goal, AfterStatus(s.sessions, c, goal, s.now));
    case LogoutRevoke(sid, refresh) => LogoutRevokeKeeps(s, tid, sid, refresh);
    case LogoutByHash(refresh) => QuietMoveKeeps(s, tid, AfterLogoutLookup(refresh, found));
    case PasswordStart(uid, o, n) => PasswordReadKeeps(s, tid, uid, o, n);
    case PasswordBump(uid, newPassword) => PasswordBumpKeeps(s, tid, uid, newPassword);
  }

  ghost function Unused(tids: set<Id>): (tid: Id)
    ensures tid !in tids
  {
    if tids == {} then 0 else Above(tids) + 1
  }

  // An upper bound of a set of identifiers.
  ghost function Above(tids: set<Id>): (m: Id)
    ensures forall x | x in tids :: x <= m
  {
    if tids == {} then 0
    else
      var x :| x in tids;
      var rest := Above(tids - {x});
      assert tids == (tids - {x}) + {x};
      if x > rest then x else rest
  }

  lemma StepKeeps(s: State, a: Action, t: State)
    requires s in SAFE && Step(s, a, t)
    ensures t in SAFE && Evolves(s, t)
  {
    var idle := Unused(s.threads.Keys);
    match a
    case Tick(to) => TickKeeps(s, to, idle);
    case CreateUser(uid, _, _, _, _) => CreateUserKeeps(s, uid, t.users[uid], idle);
    case UpdateUser(tid, uid, email, role, isActive) => UpdateUserKeeps(s, tid, uid, email, role, isActive, t);
    case DeleteUser(uid) => DeleteUserKeeps(s, uid, idle, t);
    case Spawn(tid, th) => MoveKeeps(s, t, tid);
    case Run(tid, found, newId, newHash) => RunKeeps(s, tid, found, newId, newHash, t);
    case Fail(tid) => QuietMoveKeeps(s, tid, Finished(StorageError));
  }

  // Every state of a run satisfies the invariant.
  lemma {:induction false} RunInvariant(states: seq<State>, actions: seq<Action>, i: nat)
    requires IsRun(states, actions) && i < |states|
    ensures states[i] in SAFE
  {
    if i == 0 {
    } else {
      RunInvariant(states, actions, i - 1);
      StepKeeps(states[i - 1], actions[i - 1], states[i]);
    }
  }

  // Any later state of a run has evolved from any earlier one.
  lemma {:induction false} RunEvolves(states: seq<State>, actions: seq<Action>, i: nat, j: nat)
    requires IsRun(states, actions) && i <= j < |states|
    ensures Evolves(states[i], states[j])
    decreases j - i
  {
    if i == j {
    } else {
      RunEvolves(states, actions, i, j - 1);
      RunInvariant(states, actions, j - 1);
      StepKeeps(states[j - 1], actions[j - 1], states[j]);
      EvolvesTransitive(states[i], states[j - 1], states[j]);
    }
  }
}
