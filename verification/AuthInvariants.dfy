/** What every step of the session protocol keeps. */
module AuthInvariants {
  import opened Options
  import opened AuthEntities
  import opened RowUpdates
  import opened AuthProtocol

  // ---------- the invariant, piece by piece ----------

  // The current version counts the events that are allowed to change it.
  ghost predicate UsersOk(users: Users, burned: map<Id, set<Id>>, passwords: map<Id, nat>, security: map<Id, nat>) {
    && (forall uid | uid in users :: users[uid].tokenVersion ==
          1 + |SetOf(burned, uid)| + CountOf(passwords, uid) + CountOf(security, uid))
    && burned.Keys <= users.Keys && passwords.Keys <= users.Keys && security.Keys <= users.Keys
  }

  // A token's version is never ahead of its user; while they agree the token tells the truth.
  predicate TokenOk(users: Users, c: Claims) {
    && c.userId in users
    && users[c.userId].username == c.username
    && c.tokenVersion <= users[c.userId].tokenVersion
    && (c.tokenVersion == users[c.userId].tokenVersion ==>
          users[c.userId].role == c.role && users[c.userId].isActive)
  }

  predicate Describes(c: Claims, r: Session) {
    c.userId == r.userId && c.tokenVersion == r.tokenVersion
  }

  ghost predicate TokensOk(users: Users, minted: set<Claims>) {
    forall c | c in minted :: TokenOk(users, c)
  }

  // Every token names a session identifier generated for it; the stored session agrees with it.
  ghost predicate TokenSessionsOk(minted: set<Claims>, owner: map<Id, Id>, rows: Sessions) {
    forall c | c in minted ::
      && c.sessionId in owner && c.sessionId != NO_ID
      && (c.sessionId in rows ==> Describes(c, rows[c.sessionId]))
  }

  predicate SessionOk(users: Users, owner: map<Id, Id>, rows: Sessions, sid: Id)
    requires sid in rows
  {
    var r := rows[sid];
    && sid in owner && r.refreshHash in owner
    && r.userId in users && r.tokenVersion <= users[r.userId].tokenVersion
    && r.status != Expired && r.idleExpiresAt.None?
    && (r.status == Active ==> r.replacedBy.None?)
    && r.familyId in rows && rows[r.familyId].familyId == r.familyId
  }

  ghost predicate HashesUnique(rows: Sessions) {
    forall a, b {:trigger rows[a].refreshHash, rows[b].refreshHash} | a in rows && b in rows && a != b ::
      rows[a].refreshHash != rows[b].refreshHash
  }

  ghost predicate SessionsOk(users: Users, owner: map<Id, Id>, rows: Sessions) {
    && HashesUnique(rows)
    && forall sid {:trigger SessionOk(users, owner, rows, sid)} | sid in rows :: SessionOk(users, owner, rows, sid)
  }

  // `chain` lists family `f` from its login session to its newest one, each replaced by the next.
  ghost predicate IsChain(rows: Sessions, f: Id, chain: seq<Id>) {
    && |chain| > 0 && chain[0] == f && f in rows
    && (forall i | 0 <= i < |chain| ::
          chain[i] in rows && rows[chain[i]].familyId == f && rows[chain[i]].userId == rows[f].userId)
    && (forall i, j | 0 <= i < j < |chain| :: chain[i] != chain[j])
    && (forall i | 0 <= i < |chain| - 1 ::
          rows[chain[i]].replacedBy == Some(chain[i + 1]) && rows[chain[i]].status != Active)
    && rows[chain[|chain| - 1]].replacedBy.None?
    && (forall sid | sid in rows && rows[sid].familyId == f :: sid in chain)
  }

  ghost predicate HasChain(rows: Sessions, f: Id) {
    exists chain :: IsChain(rows, f, chain)
  }

  ghost predicate ChainsOk(rows: Sessions) {
    forall f {:trigger HasChain(rows, f)} | f in rows && rows[f].familyId == f :: HasChain(rows, f)
  }

  ghost predicate BurnsOk(rows: Sessions, burner: map<Id, Id>, burned: map<Id, set<Id>>) {
    && (forall sid | sid in burner :: sid in rows && rows[sid].status == Revoked)
    && (forall uid, sid | uid in burned && sid in burned[uid] :: sid in burner && rows[sid].userId == uid)
  }

  // A session a request has prepared but not yet stored.
  ghost predicate Prepared(s: State, tid: Id, newId: Id, r: Session) {
    && newId in s.owner && s.owner[newId] == tid && newId !in s.sessions
    && r.refreshHash in s.owner && s.owner[r.refreshHash] == tid
    && (forall sid | sid in s.sessions :: s.sessions[sid].refreshHash != r.refreshHash)
    && r.status == Active && r.replacedBy.None? && r.idleExpiresAt.None?
    && r.userId in s.users && r.tokenVersion <= s.users[r.userId].tokenVersion
    && (forall c | c in s.minted && c.sessionId == newId :: Describes(c, r))
  }

  predicate Seen(s: State, sid: Id, seen: Session) {
    sid in s.sessions && SameIdentity(seen, s.sessions[sid])
  }

  predicate OwnSession(s: State, sid: Id, uid: Id) {
    sid in s.sessions && s.sessions[sid].userId == uid
  }

  ghost predicate ThreadOk(s: State, tid: Id)
    requires tid in s.threads
  {
    match s.threads[tid]
    case LoginCreate(newId, r) => Prepared(s, tid, newId, r) && r.familyId == newId
    case RefreshUser(sid, seen, _) => Seen(s, sid, seen)
    case RefreshRotate(sid, seen, newId, r, _) =>
      && Seen(s, sid, seen) && Prepared(s, tid, newId, r)
      && r.familyId == seen.familyId && r.userId == seen.userId
    case RefreshLost(sid, uid, _) => OwnSession(s, sid, uid)
    case MarkReuse(sid, uid, _) => OwnSession(s, sid, uid)
    case Burn(sid, uid) =>
      OwnSession(s, sid, uid) && sid in s.burner && s.burner[sid] == tid && sid !in SetOf(s.burned, uid)
    case RevokeAll(uid, _, outcome) => uid in s.users && (outcome == Rejected || outcome == Completed)
    case CheckVersion(c, _) => c in s.minted
    case CheckStatus(c, _) => c in s.minted
    case Finished(Accepted(c)) => c in s.minted
    case Finished(NewPair(newId, from)) =>
      && newId in s.sessions && newId in s.owner && s.owner[newId] == tid
      && (from.Some? ==> from.value in s.sessions && s.sessions[from.value].replacedBy == Some(newId))
    case _ => true
  }

  ghost predicate ThreadsOk(s: State) {
    forall tid {:trigger ThreadOk(s, tid)} | tid in s.threads :: ThreadOk(s, tid)
  }

  ghost predicate StoreOk(s: State) {
    && UsersOk(s.users, s.burned, s.passwordChanges, s.securityUpdates)
    && TokensOk(s.users, s.minted)
    && TokenSessionsOk(s.minted, s.owner, s.sessions)
    && SessionsOk(s.users, s.owner, s.sessions)
    && ChainsOk(s.sessions)
    && BurnsOk(s.sessions, s.burner, s.burned)
  }

  ghost predicate Inv(s: State) {
    StoreOk(s) && ThreadsOk(s)
  }

  // The states the invariant allows, and those whose stored rows and history it allows.
  ghost const SAFE: iset<State> := iset s | Inv(s)
  ghost const STORED: iset<State> := iset s | StoreOk(s)

  // ---------- how the stored state may evolve ----------

  predicate UserEvolves(a: User, b: User) {
    a.username == b.username && a.tokenVersion <= b.tokenVersion && (a.deleted ==> b == a)
  }

  predicate SessionEvolves(a: Session, b: Session) {
    && SameIdentity(a, b)
    && Rank(a.status) <= Rank(b.status)
    && (a.replacedBy.Some? ==> b.replacedBy == a.replacedBy)
  }

  // Holds between any two states of a run, earlier first.
  ghost predicate Evolves(s: State, t: State) {
    && s.now <= t.now && s.ttl == t.ttl
    && (forall uid | uid in s.users :: uid in t.users && UserEvolves(s.users[uid], t.users[uid]))
    && (forall sid | sid in s.sessions :: sid in t.sessions && SessionEvolves(s.sessions[sid], t.sessions[sid]))
    && s.minted <= t.minted
    && (forall id | id in s.owner :: id in t.owner && t.owner[id] == s.owner[id])
    && (forall sid | sid in s.burner :: sid in t.burner && t.burner[sid] == s.burner[sid])
    && (forall tid | tid in s.threads :: tid in t.threads && (s.threads[tid].Finished? ==> t.threads[tid] == s.threads[tid]))
  }

  // One step of request `me`: whatever is new carries identifiers that `me` generated.
  ghost predicate StepBy(s: State, t: State, me: Id) {
    && Evolves(s, t)
    && (forall tid | tid in t.threads && tid != me :: tid in s.threads && t.threads[tid] == s.threads[tid])
    && (forall sid | sid in t.sessions && sid !in s.sessions ::
          sid in s.owner && s.owner[sid] == me &&
          t.sessions[sid].refreshHash in s.owner && s.owner[t.sessions[sid].refreshHash] == me)
    && (forall c | c in t.minted && c !in s.minted :: c.sessionId !in s.owner)
    && (forall uid, sid | uid in t.burned && sid in t.burned[uid] && sid !in SetOf(s.burned, uid) ::
          sid in s.burner && s.burner[sid] == me)
  }

  // Where a step of request `me` may lead: anywhere, and where the invariant holds.
  ghost function Moves(s: State, me: Id): iset<State> {
    iset t | StepBy(s, t, me)
  }

  ghost function Next(s: State, me: Id): iset<State> {
    iset t | t in SAFE && t in Moves(s, me)
  }

  lemma EvolvesTransitive(s: State, t: State, u: State)
    requires Evolves(s, t) && Evolves(t, u)
    ensures Evolves(s, u)
  {
  }

  // A step of one request leaves what is known about every other request true.
  lemma OthersKeep(s: State, t: State, me: Id, tid: Id)
    requires ThreadsOk(s) && t in Moves(s, me)
    requires tid in t.threads && tid != me
    ensures ThreadOk(t, tid)
  {
    assert ThreadOk(s, tid);
    if s.threads[tid].Burn? {
      var uid := s.threads[tid].uid;
      assert uid in t.burned ==> t.burned[uid] == SetOf(t.burned, uid);
    }
  }

  lemma Assemble(s: State, t: State, me: Id)
    requires s in SAFE && t in Moves(s, me) && t in STORED
    requires me in t.threads ==> ThreadOk(t, me)
    ensures t in Next(s, me)
  {
    forall tid | tid in t.threads
      ensures ThreadOk(t, tid)
    {
      if tid != me { OthersKeep(s, t, me, tid); }
    }
  }

  lemma KnowThread(s: State, tid: Id)
    requires s in SAFE && tid in s.threads
    ensures ThreadOk(s, tid)
  {
  }

  lemma KnowSession(s: State, sid: Id)
    requires s in SAFE && sid in s.sessions
    ensures SessionOk(s.users, s.owner, s.sessions, sid)
  {
  }

  // ---------- chains ----------

  // Statuses may leave Active, nothing else about the links may change.
  predicate LinksKept(a: Sessions, b: Sessions) {
    && a.Keys == b.Keys
    && forall sid | sid in a ::
         && SameIdentity(a[sid], b[sid]) && a[sid].replacedBy == b[sid].replacedBy
         && (b[sid].status == Active ==> a[sid].status == Active)
  }

  lemma ChainsSurviveRevocation(a: Sessions, b: Sessions)
    requires ChainsOk(a) && LinksKept(a, b)
    ensures ChainsOk(b)
  {
    forall f | f in b && b[f].familyId == f
      ensures HasChain(b, f)
    {
      assert HasChain(a, f);
      var chain :| IsChain(a, f, chain);
      assert IsChain(b, f, chain);
    }
  }

  lemma ChainsSurviveLogin(a: Sessions, sid: Id, r: Session)
    requires ChainsOk(a) && sid !in a && r.familyId == sid && r.replacedBy.None?
    requires forall x | x in a :: a[x].familyId in a
    ensures ChainsOk(a[sid := r])
  {
    var b := a[sid := r];
    forall f | f in b && b[f].familyId == f
      ensures HasChain(b, f)
    {
      if f == sid {
        assert IsChain(b, f, [sid]);
      } else {
        assert HasChain(a, f);
        var chain :| IsChain(a, f, chain);
        assert IsChain(b, f, chain);
      }
    }
  }

  lemma ActiveIsLast(rows: Sessions, f: Id, chain: seq<Id>, sid: Id)
    requires IsChain(rows, f, chain)
    requires sid in rows && rows[sid].familyId == f && rows[sid].status == Active
    ensures chain[|chain| - 1] == sid
  {
    assert sid in chain;
    var i :| 0 <= i < |chain| && chain[i] == sid;
  }

  // `b` is `a` after session `current` was replaced by the new session `newId`.
  ghost predicate Replaced(a: Sessions, current: Id, b: Sessions, newId: Id) {
    && current in a && a[current].status == Active && newId !in a
    && b.Keys == a.Keys + {newId}
    && b[newId].familyId == a[current].familyId && b[newId].userId == a[current].userId
    && b[newId].replacedBy.None?
    && SameIdentity(a[current], b[current])
    && b[current].replacedBy == Some(newId) && b[current].status != Active
    && forall x | x in a && x != current :: b[x] == a[x]
  }

  lemma ChainGrows(a: Sessions, current: Id, b: Sessions, newId: Id, f: Id, chain: seq<Id>)
    requires Replaced(a, current, b, newId) && f == a[current].familyId && IsChain(a, f, chain)
    ensures IsChain(b, f, chain + [newId])
  {
    ActiveIsLast(a, f, chain, current);
    var longer, n := chain + [newId], |chain|;
    forall i | 0 <= i < n
      ensures longer[i] in b && b[longer[i]].familyId == f && b[longer[i]].userId == b[f].userId
      ensures b[longer[i]].replacedBy == Some(longer[i + 1]) && b[longer[i]].status != Active
    {
      assert longer[i] == chain[i];
      assert i < n - 1 ==> chain[i] != chain[n - 1];
    }
  }

  lemma ChainsSurviveRotation(a: Sessions, current: Id, b: Sessions, newId: Id)
    requires ChainsOk(a) && Replaced(a, current, b, newId)
    requires forall x | x in a :: a[x].familyId in a && a[a[x].familyId].familyId == a[x].familyId
    ensures ChainsOk(b)
  {
    forall f | f in b && b[f].familyId == f
      ensures HasChain(b, f)
    {
      assert f in a && HasChain(a, f);
      var chain :| IsChain(a, f, chain);
      if f == a[current].familyId {
        ChainGrows(a, current, b, newId, f, chain);
      } else {
        assert current !in chain;
        assert IsChain(b, f, chain);
      }
    }
  }
}
