/** Whole requests over interleaved runs: what a request that has ended must have met on its way, and what it leaves. */
module AuthTrails {
  import opened Options
  import opened AuthEntities
  import opened RowUpdates
  import opened AuthProtocol
  import opened AuthInvariants
  import opened AuthSteps
  import E = AuthEffects

  // ---------- one step ----------

  predicate Acts(a: Action, tid: Id) {
    (a.Run? || a.Fail?) && a.tid == tid
  }

  // The burns already booked stay, and a new one is booked by the request that makes the step.
  ghost predicate BooksKept(s: State, a: Action, t: State) {
    && (forall x | x in t.burner :: (x in s.burner && t.burner[x] == s.burner[x]) || (a.Run? && t.burner[x] == a.tid))
    && (forall uid, x | x in SetOf(s.burned, uid) :: x in SetOf(t.burned, uid))
  }

  lemma SigningInKeepsBooks(s: State, a: Action, t: State)
    requires Step(s, a, t) && a.Run?
    requires a.tid in s.threads && s.threads[a.tid].LoginStart?
    ensures a.tid in t.threads && t.threads == s.threads[a.tid := t.threads[a.tid]] && t.burner == s.burner && t.burned == s.burned
    ensures t.users.Keys == s.users.Keys
  {
    hide MintLogin, Fresh, UpdateStep, DeleteStep;
    var password := s.threads[a.tid].password;
    assert FoundByName(s.users, s.threads[a.tid].username, a.found);
    if LoginAccepted(s.users, a.found, password) {
      MintingTouches(s, a.tid, a.found.value, a.newId, a.newHash);
    }
  }

  lemma MintingTouches(s: State, tid: Id, uid: Id, newId: Id, newHash: Id)
    requires uid in s.users
    ensures var t := MintLogin(s, tid, uid, newId, newHash);
            && tid in t.threads && t == s.(threads := s.threads[tid := t.threads[tid]], minted := t.minted, owner := t.owner)
  {
  }

  lemma SigningKeepsBooks(s: State, a: Action, t: State)
    requires Step(s, a, t) && a.Run?
    requires a.tid in s.threads && s.threads[a.tid].RefreshUser?
    ensures a.tid in t.threads && t.threads == s.threads[a.tid := t.threads[a.tid]] && t.burner == s.burner && t.burned == s.burned
    ensures t.users.Keys == s.users.Keys
  {
    hide Fresh, ClaimsFor, NewSession, LookupOk, UpdateStep, DeleteStep;
    var th := s.threads[a.tid];
    if RefreshAllowed(s.users, th.seen) {
      assert t == MintRefresh(s, a.tid, th.sid, th.seen, th.at, a.newId, a.newHash);
    } else {
      assert t == At(s, a.tid, Finished(Rejected));
    }
  }

  lemma StoringKeepsBooks(s: State, a: Action, t: State)
    requires Step(s, a, t) && a.Run? && (s.threads[a.tid].LoginCreate? || s.threads[a.tid].RefreshRotate?)
    ensures a.tid in t.threads && t.threads == s.threads[a.tid := t.threads[a.tid]] && t.burner == s.burner && t.burned == s.burned
    ensures t.users.Keys == s.users.Keys
  {
  }

  lemma ReadingKeepsBooks(s: State, a: Action, t: State)
    requires Step(s, a, t) && a.Run?
    requires s.threads[a.tid].RefreshStart? || s.threads[a.tid].RefreshLost? || s.threads[a.tid].PasswordStart?
    ensures a.tid in t.threads && t.threads == s.threads[a.tid := t.threads[a.tid]] && t.burner == s.burner && t.burned == s.burned
    ensures t.users.Keys == s.users.Keys
  {
  }

  lemma CheckingKeepsBooks(s: State, a: Action, t: State)
    requires Step(s, a, t) && a.Run?
    requires s.threads[a.tid].CheckVersion? || s.threads[a.tid].CheckStatus? || s.threads[a.tid].LogoutByHash?
    ensures a.tid in t.threads && t.threads == s.threads[a.tid := t.threads[a.tid]] && t.burner == s.burner && t.burned == s.burned
    ensures t.users.Keys == s.users.Keys
  {
  }

  lemma RevokingKeepsBooks(s: State, a: Action, t: State)
    requires Step(s, a, t) && a.Run?
    requires s.threads[a.tid].RevokeAll? || s.threads[a.tid].PasswordBump? || s.threads[a.tid].LogoutRevoke?
    ensures a.tid in t.threads && t.threads == s.threads[a.tid := t.threads[a.tid]] && t.burner == s.burner && t.burned == s.burned
    ensures t.users.Keys == s.users.Keys
  {
  }

  lemma BurningKeepsBooks(s: State, a: Action, t: State)
    requires Step(s, a, t) && a.Run? && (s.threads[a.tid].MarkReuse? || s.threads[a.tid].Burn?)
    ensures a.tid in t.threads && t.threads == s.threads[a.tid := t.threads[a.tid]] && BooksKept(s, a, t)
    ensures t.users.Keys == s.users.Keys
    ensures s.threads[a.tid].Burn? ==> t.burner == s.burner
  {
  }

  lemma RunKeepsBooks(s: State, a: Action, t: State)
    requires Step(s, a, t) && a.Run?
    ensures a.tid in s.threads && a.tid in t.threads && t.threads == s.threads[a.tid := t.threads[a.tid]]
    ensures BooksKept(s, a, t) && (!s.threads[a.tid].MarkReuse? ==> t.burner == s.burner)
    ensures t.users.Keys == s.users.Keys
  {
    var th := s.threads[a.tid];
    if th.LoginStart? { SigningInKeepsBooks(s, a, t); }
    else if th.RefreshUser? { SigningKeepsBooks(s, a, t); }
    else if th.LoginCreate? || th.RefreshRotate? { StoringKeepsBooks(s, a, t); }
    else if th.MarkReuse? || th.Burn? { BurningKeepsBooks(s, a, t); }
    else if th.RevokeAll? || th.PasswordBump? || th.LogoutRevoke? { RevokingKeepsBooks(s, a, t); }
    else if th.RefreshStart? || th.RefreshLost? || th.PasswordStart? { ReadingKeepsBooks(s, a, t); }
    else { CheckingKeepsBooks(s, a, t); }
  }

  lemma ManagingKeepsBooks(s: State, a: Action, t: State)
    requires Step(s, a, t) && (a.CreateUser? || a.DeleteUser?)
    ensures t.burner == s.burner && t.burned == s.burned && t.threads == s.threads
  {
  }

  lemma UpdatingKeepsBooks(s: State, a: Action, t: State)
    requires Step(s, a, t) && a.UpdateUser?
    ensures t.burner == s.burner && t.burned == s.burned
    ensures a.tid !in s.threads && forall tid | tid in s.threads :: tid in t.threads && t.threads[tid] == s.threads[tid]
  {
    hide UpdateStep, RunStep, DeleteStep;
    EditingKeepsBooks(s, a.tid, a.uid, a.newEmail, a.newRole, a.setActive, t);
  }

  lemma EditingKeepsBooks(s: State, tid: Id, uid: Id, email: Option<Id>, role: Option<Role>, isActive: Option<bool>, t: State)
    requires UpdateStep(s, tid, uid, email, role, isActive, t) && tid !in s.threads
    ensures t.users.Keys == s.users.Keys && t.burner == s.burner && t.burned == s.burned
    ensures forall x | x in s.threads :: x in t.threads && t.threads[x] == s.threads[x]
  {
  }

  lemma PassingKeepsBooks(s: State, a: Action, t: State)
    requires Step(s, a, t) && (a.Tick? || a.Spawn? || a.Fail?)
    ensures t.burner == s.burner && t.burned == s.burned
    ensures forall tid | tid in s.threads && !Acts(a, tid) :: tid in t.threads && t.threads[tid] == s.threads[tid]
    ensures a.Fail? ==> a.tid in t.threads && t.threads[a.tid] == Finished(StorageError)
  {
  }

  lemma OtherKeepsBooks(s: State, a: Action, t: State)
    requires Step(s, a, t) && !a.Run?
    ensures t.burner == s.burner && t.burned == s.burned
    ensures forall tid | tid in s.threads && !Acts(a, tid) :: tid in t.threads && t.threads[tid] == s.threads[tid]
    ensures a.Fail? ==> a.tid in t.threads && t.threads[a.tid] == Finished(StorageError)
  {
    hide Step;
    if a.CreateUser? || a.DeleteUser? { ManagingKeepsBooks(s, a, t); }
    else if a.UpdateUser? { UpdatingKeepsBooks(s, a, t); }
    else { PassingKeepsBooks(s, a, t); }
  }

  lemma StepKeepsBooks(s: State, a: Action, t: State)
    requires Step(s, a, t)
    ensures BooksKept(s, a, t)
    ensures forall tid | tid in s.threads && !Acts(a, tid) :: tid in t.threads && t.threads[tid] == s.threads[tid]
    ensures a.Fail? ==> a.tid in t.threads && t.threads[a.tid] == Finished(StorageError)
  {
    hide Step;
    if a.Run? { RunKeepsBooks(s, a, t); } else { OtherKeepsBooks(s, a, t); }
  }

  // ---------- a request burns once ----------

  predicate HasMarked(th: Thread) {
    th.Burn? || th.RevokeAll? || th.Finished?
  }

  ghost predicate BurnersPast(s: State) {
    forall x | x in s.burner :: s.burner[x] in s.threads && HasMarked(s.threads[s.burner[x]])
  }

  lemma BurningStaysMarked(s: State, a: Action, t: State)
    requires Step(s, a, t) && a.Run? && s.threads[a.tid].Burn?
    ensures a.tid in t.threads && HasMarked(t.threads[a.tid])
  {
  }

  lemma RevokingStaysMarked(s: State, a: Action, t: State)
    requires Step(s, a, t) && a.Run? && s.threads[a.tid].RevokeAll?
    ensures a.tid in t.threads && HasMarked(t.threads[a.tid])
  {
  }

  lemma MarkingIsMarked(s: State, a: Action, t: State)
    requires Step(s, a, t) && a.Run? && s.threads[a.tid].MarkReuse?
    ensures a.tid in t.threads && HasMarked(t.threads[a.tid])
  {
  }

  lemma StepKeepsPast(s: State, a: Action, t: State)
    requires BurnersPast(s) && Step(s, a, t)
    ensures BurnersPast(t)
  {
    hide Step;
    StepKeepsBooks(s, a, t);
    if a.Run? {
      RunKeepsBooks(s, a, t);
      if s.threads[a.tid].MarkReuse? { MarkingIsMarked(s, a, t); }
      else if s.threads[a.tid].Burn? { BurningStaysMarked(s, a, t); }
      else if s.threads[a.tid].RevokeAll? { RevokingStaysMarked(s, a, t); }
      else { NothingRunsFinished(s, a, t); }
    }
  }

  lemma {:induction false} RunPast(states: seq<State>, actions: seq<Action>, i: nat)
    requires IsRun(states, actions) && i < |states|
    ensures BurnersPast(states[i])
  {
    hide Step;
    if i == 0 {
    } else {
      RunPast(states, actions, i - 1);
      StepKeepsPast(states[i - 1], actions[i - 1], states[i]);
    }
  }

  // ---------- reuse ----------

  // Request `tid` is answering the reuse of session `sid`, which it noticed in state `s0`.
  ghost predicate Answering(s0: State, s: State, tid: Id, sid: Id, uid: Id) {
    && tid in s.threads && sid in s.sessions && uid in s0.users && uid in s.users
    && match s.threads[tid]
       case MarkReuse(x, u, _) =>
         x == sid && u == uid && s.sessions[sid].status != Active && forall y | y in s.burner :: s.burner[y] != tid
       case Burn(x, u) => x == sid && u == uid && s.sessions[sid].status == Revoked && sid in s.burner && s.burner[sid] == tid
       case RevokeAll(u, _, outcome) =>
         && u == uid && outcome == Rejected && s.sessions[sid].status == Revoked && sid in s.burner && s.burner[sid] == tid
         && sid in SetOf(s.burned, uid) && s.users[uid].tokenVersion > s0.users[uid].tokenVersion
       case Finished(outcome) => outcome == StorageError || (outcome == Rejected && Answered(s0, s, tid, sid, uid))
       case _ => false
  }

  // The session is revoked; and if it was this request that revoked it, then the user's version has moved, and none
  // of the sessions the user had when the reuse was noticed is active any more.
  ghost predicate Answered(s0: State, s: State, tid: Id, sid: Id, uid: Id) {
    && sid in s.sessions && s.sessions[sid].status == Revoked
    && (sid in s.burner && s.burner[sid] == tid ==>
          && sid in SetOf(s.burned, uid)
          && uid in s0.users && uid in s.users && s.users[uid].tokenVersion > s0.users[uid].tokenVersion
          && forall x | x in s0.sessions && s0.sessions[x].userId == uid :: x in s.sessions && s.sessions[x].status != Active)
  }

  lemma OthersLeaveAnswer(s0: State, s: State, a: Action, t: State, tid: Id, sid: Id, uid: Id)
    requires Answering(s0, s, tid, sid, uid) && Evolves(s0, s) && Evolves(s, t) && BooksKept(s, a, t) && !Acts(a, tid)
    requires sid in t.sessions && t.sessions[sid].status != Expired
    requires tid in t.threads && t.threads[tid] == s.threads[tid]
    ensures Answering(s0, t, tid, sid, uid)
  {
  }

  lemma MarkAnswers(s0: State, s: State, a: Action, t: State, tid: Id, sid: Id, uid: Id)
    requires s in SAFE && Answering(s0, s, tid, sid, uid) && Step(s, a, t) && a.Run? && a.tid == tid && s.threads[tid].MarkReuse?
    ensures Answering(s0, t, tid, sid, uid)
  {
    KnowSession(s, sid);
  }

  lemma BurnAnswers(s0: State, s: State, a: Action, t: State, tid: Id, sid: Id, uid: Id)
    requires Answering(s0, s, tid, sid, uid) && Evolves(s0, s) && Step(s, a, t) && a.Run? && a.tid == tid && s.threads[tid].Burn?
    ensures Answering(s0, t, tid, sid, uid)
  {
  }

  lemma RevokingAnswers(s0: State, s: State, a: Action, t: State, tid: Id, sid: Id, uid: Id)
    requires Answering(s0, s, tid, sid, uid) && Evolves(s0, s) && Step(s, a, t) && a.Run? && a.tid == tid && s.threads[tid].RevokeAll?
    ensures Answering(s0, t, tid, sid, uid)
  {
  }

  lemma AnswerGoesOn(s0: State, s: State, a: Action, t: State, tid: Id, sid: Id, uid: Id)
    requires s in SAFE && t in SAFE && Evolves(s0, s) && Evolves(s, t) && Step(s, a, t) && Answering(s0, s, tid, sid, uid)
    ensures Answering(s0, t, tid, sid, uid)
  {
    hide Step, Evolves;
    StepKeepsBooks(s, a, t);
    if !Acts(a, tid) {
      RowStays(s, t, sid);
      OthersLeaveAnswer(s0, s, a, t, tid, sid, uid);
    } else if a.Fail? {
      RowStays(s, t, sid);
      UserStays(s, t, uid);
    } else if s.threads[tid].MarkReuse? {
      MarkAnswers(s0, s, a, t, tid, sid, uid);
    } else if s.threads[tid].Burn? {
      BurnAnswers(s0, s, a, t, tid, sid, uid);
    } else if s.threads[tid].RevokeAll? {
      RevokingAnswers(s0, s, a, t, tid, sid, uid);
    } else {
      NothingRunsFinished(s, a, t);
    }
  }

  lemma NothingRunsFinished(s: State, a: Action, t: State)
    requires Step(s, a, t) && a.Run?
    ensures a.tid in s.threads && !s.threads[a.tid].Finished?
  {
  }

  lemma RowStays(s: State, t: State, sid: Id)
    requires t in SAFE && Evolves(s, t) && sid in s.sessions
    ensures sid in t.sessions && t.sessions[sid].status != Expired
  {
    assert sid in t.sessions;
    KnowSession(t, sid);
  }

  lemma UserStays(s: State, t: State, uid: Id)
    requires Evolves(s, t) && uid in s.users
    ensures uid in t.users
  {
  }

  lemma {:induction false} AnswerTrail(states: seq<State>, actions: seq<Action>, i: nat, k: nat, j: nat, tid: Id, sid: Id, uid: Id)
    requires IsRun(states, actions) && i <= k <= j < |states| && Answering(states[i], states[k], tid, sid, uid)
    ensures Answering(states[i], states[j], tid, sid, uid)
    decreases j - k
  {
    hide Step, Evolves, Answering;
    if k == j {
    } else {
      AnswerTrail(states, actions, i, k, j - 1, tid, sid, uid);
      RunInvariant(states, actions, j - 1);
      RunInvariant(states, actions, j);
      RunEvolves(states, actions, i, j - 1);
      RunEvolves(states, actions, j - 1, j);
      AnswerGoesOn(states[i], states[j - 1], actions[j - 1], states[j], tid, sid, uid);
    }
  }

  // Request `tid` notices in state `s` that the token it presents is of a rotated session: when it looks the token up, or
  // when it has lost the rotation and looks at the session again.
  ghost predicate Notices(s: State, a: Action, tid: Id, sid: Id) {
    && a.Run? && a.tid == tid && tid in s.threads && sid in s.sessions && s.sessions[sid].status == Rotated
    && match s.threads[tid]
       case RefreshStart(hash) => hash != NO_ID && a.found == Some(sid)
       case RefreshLost(x, _, _) => x == sid
       case _ => false
  }

  lemma LookingUpAnswers(s: State, a: Action, t: State, tid: Id, sid: Id)
    requires s in SAFE && BurnersPast(s) && Step(s, a, t) && Notices(s, a, tid, sid) && s.threads[tid].RefreshStart?
    ensures Answering(s, t, tid, sid, s.sessions[sid].userId)
  {
    hide SAFE;
    KnowSession(s, sid);
    assert t == At(s, tid, MarkReuse(sid, s.sessions[sid].userId, s.now));
  }

  lemma LosingAnswers(s: State, a: Action, t: State, tid: Id, sid: Id)
    requires s in SAFE && BurnersPast(s) && Step(s, a, t) && Notices(s, a, tid, sid) && s.threads[tid].RefreshLost?
    ensures Answering(s, t, tid, sid, s.sessions[sid].userId)
  {
    hide SAFE;
    KnowSession(s, sid);
    KnowThread(s, tid);
    assert t == At(s, tid, MarkReuse(sid, s.threads[tid].uid, s.threads[tid].at));
  }

  lemma NoticingAnswers(s: State, a: Action, t: State, tid: Id, sid: Id)
    requires s in SAFE && BurnersPast(s) && Step(s, a, t) && Notices(s, a, tid, sid)
    ensures Answering(s, t, tid, sid, s.sessions[sid].userId)
  {
    hide Step, Answering;
    if s.threads[tid].RefreshStart? { LookingUpAnswers(s, a, t, tid, sid); } else { LosingAnswers(s, a, t, tid, sid); }
  }

  // Reuse of a refresh token does not go unanswered: whoever presents the token of a rotated session and ends without a
  // storage error is turned away and leaves the session revoked; and the one request that revoked it has also moved the
  // user's version and ended every session that the user had, whoever holds it.
  lemma ReuseIsAnswered(states: seq<State>, actions: seq<Action>, i: nat, j: nat, tid: Id, sid: Id)
    requires IsRun(states, actions) && i < j < |states| && Notices(states[i], actions[i], tid, sid)
    requires tid in states[j].threads && states[j].threads[tid].Finished? && states[j].threads[tid] != Finished(StorageError)
    ensures states[j].threads[tid] == Finished(Rejected)
    ensures sid in states[j].sessions && states[j].sessions[sid].status == Revoked
    ensures var uid := states[i].sessions[sid].userId;
            sid in states[j].burner && states[j].burner[sid] == tid ==>
              && sid in SetOf(states[j].burned, uid)
              && uid in states[i].users && uid in states[j].users
              && states[i].users[uid].tokenVersion < states[j].users[uid].tokenVersion
              && forall x | x in states[i].sessions && states[i].sessions[x].userId == uid ::
                   x in states[j].sessions && states[j].sessions[x].status != Active
  {
    hide Step;
    RunInvariant(states, actions, i);
    RunPast(states, actions, i);
    NoticingAnswers(states[i], actions[i], states[i + 1], tid, sid);
    AnswerTrail(states, actions, i, i + 1, j, tid, sid, states[i].sessions[sid].userId);
  }

  // Somebody has revoked it in any case: this request, unless the session had been revoked when it came to do so.
  lemma FirstToMarkBurns(states: seq<State>, actions: seq<Action>, k: nat, tid: Id, sid: Id)
    requires IsRun(states, actions) && k < |actions| && actions[k].Run? && actions[k].tid == tid
    requires tid in states[k].threads && states[k].threads[tid].MarkReuse? && states[k].threads[tid].sid == sid
    requires sid in states[k].sessions && states[k].sessions[sid].status == Rotated
    ensures sid in states[k + 1].burner && states[k + 1].burner[sid] == tid && states[k + 1].sessions[sid].status == Revoked
  {
    assert Step(states[k], actions[k], states[k + 1]);
  }

  // ---------- Login ----------

  // State `s` has a user of that name with that password who may log in.
  predicate LetsIn(s: State, uid: Id, name: Id, password: Id) {
    && uid in s.users && !s.users[uid].deleted && s.users[uid].isActive
    && s.users[uid].username == name && s.users[uid].password == password
  }

  // How a login goes on from its start in state `i`.
  ghost predicate LoggingIn(states: seq<State>, i: nat, j: nat, tid: Id, name: Id, password: Id)
    requires i <= j < |states|
  {
    && tid in states[j].threads
    && match states[j].threads[tid]
       case LoginStart(n, p) => n == name && p == password
       case LoginCreate(_, r) => exists k :: i <= k < j && LetsIn(states[k], r.userId, name, password)
       case Finished(NewPair(newId, _)) =>
         newId in states[j].sessions && exists k :: i <= k < j && LetsIn(states[k], states[j].sessions[newId].userId, name, password)
       case Finished(_) => true
       case _ => false
  }

  lemma LoginStartGoesOn(s: State, a: Action, t: State, tid: Id, name: Id, password: Id)
    requires Step(s, a, t) && a.Run? && a.tid == tid && s.threads[tid] == LoginStart(name, password)
    ensures tid in t.threads
    ensures || t.threads[tid] == Finished(Rejected)
            || (t.threads[tid].LoginCreate? && LetsIn(s, t.threads[tid].session.userId, name, password))
  {
    hide Mint, Fresh, ClaimsFor, UpdateStep, DeleteStep;
    assert FoundByName(s.users, name, a.found);
    if LoginAccepted(s.users, a.found, password) {
      assert t == MintLogin(s, tid, a.found.value, a.newId, a.newHash);
    } else {
      assert t == At(s, tid, Finished(Rejected));
    }
  }

  lemma LoginCreateGoesOn(s: State, a: Action, t: State, tid: Id)
    requires Step(s, a, t) && a.Run? && a.tid == tid && s.threads[tid].LoginCreate?
    ensures tid in t.threads
    ensures var th := s.threads[tid];
            || t.threads[tid] == Finished(StorageError)
            || (t.threads[tid] == Finished(NewPair(th.newId, None)) && th.newId in t.sessions && t.sessions[th.newId] == th.session)
  {
  }

  lemma LoginGoesOn(states: seq<State>, actions: seq<Action>, i: nat, j: nat, tid: Id, name: Id, password: Id)
    requires IsRun(states, actions) && i <= j < |actions| && LoggingIn(states, i, j, tid, name, password)
    ensures LoggingIn(states, i, j + 1, tid, name, password)
  {
    hide Step;
    var s, a, t := states[j], actions[j], states[j + 1];
    StepKeepsBooks(s, a, t);
    RunEvolves(states, actions, j, j + 1);
    if a.Run? && a.tid == tid {
      NothingRunsFinished(s, a, t);
      if s.threads[tid].LoginStart? {
        LoginStartGoesOn(s, a, t, tid, name, password);
      } else {
        LoginCreateGoesOn(s, a, t, tid);
      }
    }
  }

  lemma {:induction false} LoginTrail(states: seq<State>, actions: seq<Action>, i: nat, j: nat, tid: Id, name: Id, password: Id)
    requires IsRun(states, actions) && i <= j < |states|
    requires tid in states[i].threads && states[i].threads[tid] == LoginStart(name, password)
    ensures LoggingIn(states, i, j, tid, name, password)
    decreases j - i
  {
    hide Step;
    if i == j {
    } else {
      LoginTrail(states, actions, i, j - 1, tid, name, password);
      LoginGoesOn(states, actions, i, j - 1, tid, name, password);
    }
  }

  // Nobody gets a pair without the password: a login that ends with one has met an active user of that name whose
  // password it was, and the session it has opened is that user's.
  lemma LoginMetThePassword(states: seq<State>, actions: seq<Action>, i: nat, j: nat, tid: Id, name: Id, password: Id, newId: Id)
    returns (k: nat)
    requires IsRun(states, actions) && i <= j < |states|
    requires tid in states[i].threads && states[i].threads[tid] == LoginStart(name, password)
    requires tid in states[j].threads && states[j].threads[tid] == Finished(NewPair(newId, None))
    ensures i <= k < j && newId in states[j].sessions
    ensures var uid := states[j].sessions[newId].userId;
            && uid in states[k].users && !states[k].users[uid].deleted && states[k].users[uid].isActive
            && states[k].users[uid].username == name && states[k].users[uid].password == password
  {
    hide Step;
    LoginTrail(states, actions, i, j, tid, name, password);
    k :| i <= k < j && LetsIn(states[k], states[j].sessions[newId].userId, name, password);
  }

  // ---------- who is turned away ----------

  // Names are given once and kept, by deleted users too.
  ghost predicate NamesDiffer(s: State) {
    forall x, y | x in s.users && y in s.users && x != y :: s.users[x].username != s.users[y].username
  }

  lemma UpdatingAddsNoUser(s: State, a: Action, t: State)
    requires Step(s, a, t) && a.UpdateUser?
    ensures t.users.Keys == s.users.Keys
  {
    hide UpdateStep, RunStep, DeleteStep;
    EditingKeepsBooks(s, a.tid, a.uid, a.newEmail, a.newRole, a.setActive, t);
  }

  lemma PassingAddsNoUser(s: State, a: Action, t: State)
    requires Step(s, a, t) && (a.Tick? || a.Spawn? || a.Fail?)
    ensures t.users.Keys == s.users.Keys
  {
  }

  lemma DeletingAddsNoUser(s: State, a: Action, t: State)
    requires Step(s, a, t) && a.DeleteUser?
    ensures t.users.Keys == s.users.Keys
  {
    hide RunStep, UpdateStep;
    assert DeleteStep(s, a.uid, t);
    if FindUser(s.users, a.uid).Some? { assert t.users == s.users[a.uid := t.users[a.uid]]; }
  }

  lemma StepKeepsNames(s: State, a: Action, t: State)
    requires NamesDiffer(s) && Step(s, a, t) && Evolves(s, t)
    ensures NamesDiffer(t)
  {
    if a.CreateUser? {
      assert forall x | x in s.users :: t.users[x] == s.users[x];
    } else {
      hide Step;
      if a.Run? { RunKeepsBooks(s, a, t); }
      else if a.UpdateUser? { UpdatingAddsNoUser(s, a, t); }
      else if a.DeleteUser? { DeletingAddsNoUser(s, a, t); }
      else { PassingAddsNoUser(s, a, t); }
    }
  }

  lemma {:induction false} RunNames(states: seq<State>, actions: seq<Action>, i: nat)
    requires IsRun(states, actions) && i < |states|
    ensures NamesDiffer(states[i])
  {
    hide Step, Evolves;
    if i == 0 {
    } else {
      RunNames(states, actions, i - 1);
      RunEvolves(states, actions, i - 1, i);
      StepKeepsNames(states[i - 1], actions[i - 1], states[i]);
    }
  }

  // A login goes on past its lookup exactly if somebody active has that name and that password.
  lemma LoginIsTurnedAway(states: seq<State>, actions: seq<Action>, k: nat, name: Id, password: Id)
    requires IsRun(states, actions) && k < |actions| && actions[k].Run? && actions[k].tid in states[k].threads
    requires states[k].threads[actions[k].tid] == LoginStart(name, password)
    ensures actions[k].tid in states[k + 1].threads
    ensures states[k + 1].threads[actions[k].tid] == Finished(Rejected)
       <==> forall uid | uid in states[k].users :: !LetsIn(states[k], uid, name, password)
  {
    hide Step, Evolves;
    RunNames(states, actions, k);
    LookupDecides(states[k], actions[k], states[k + 1], name, password);
  }

  lemma LookupDecides(s: State, a: Action, t: State, name: Id, password: Id)
    requires NamesDiffer(s) && Step(s, a, t) && a.Run? && s.threads[a.tid] == LoginStart(name, password)
    ensures a.tid in t.threads
    ensures t.threads[a.tid] == Finished(Rejected) <==> forall uid | uid in s.users :: !LetsIn(s, uid, name, password)
  {
    hide Mint, Fresh, ClaimsFor, UpdateStep, DeleteStep;
    assert FoundByName(s.users, name, a.found);
    if LoginAccepted(s.users, a.found, password) {
      assert LetsIn(s, a.found.value, name, password);
      assert t == MintLogin(s, a.tid, a.found.value, a.newId, a.newHash);
    } else {
      assert t == At(s, a.tid, Finished(Rejected));
    }
  }

  // A refresh is turned away by its lookup exactly if it has no token, nobody has it, or its session is of no use
  // any more; and it is taken for reuse exactly if the session was rotated.
  lemma RefreshIsSorted(s: State, a: Action, t: State, hash: Id)
    requires Step(s, a, t) && a.Run? && s.threads[a.tid] == RefreshStart(hash)
    ensures a.tid in t.threads && (a.found.Some? ==> a.found.value in s.sessions && s.sessions[a.found.value].refreshHash == hash)
    ensures a.found.None? ==> forall sid | sid in s.sessions :: s.sessions[sid].refreshHash != hash
    ensures var next := t.threads[a.tid];
            if hash == NO_ID || a.found.None? then next == Finished(Rejected)
            else
              var row := s.sessions[a.found.value];
              var usable := && row.status == Active && s.now < row.expiresAt
                            && (row.idleExpiresAt.Some? ==> s.now < row.idleExpiresAt.value);
              next == if row.status == Rotated then MarkReuse(a.found.value, row.userId, s.now)
                      else if usable then RefreshUser(a.found.value, row, s.now)
                      else Finished(Rejected)
  {
    hide Fresh, UpdateStep, DeleteStep;
  }

  // ---------- user management ----------

  // A new user is active, at version one, and has to change the password; nobody else is touched.
  lemma CreatingStores(states: seq<State>, actions: seq<Action>, i: nat)
    requires IsRun(states, actions) && i < |actions| && actions[i].CreateUser?
    ensures var s, t, a := states[i], states[i + 1], actions[i];
            && a.uid !in s.users && t.users.Keys == s.users.Keys + {a.uid} && (forall x | x in s.users :: t.users[x] == s.users[x])
            && var u := t.users[a.uid];
               && u.username == a.username && u.password == a.password && u.email == a.email && u.role == a.role
               && u.isActive && u.isFirstLogin && u.tokenVersion == 1 && !u.deleted
  {
    assert Step(states[i], actions[i], states[i + 1]);
  }

  // A deleted user stays as a row, marked.
  lemma DeletingMarks(states: seq<State>, actions: seq<Action>, i: nat)
    requires IsRun(states, actions) && i < |actions| && actions[i].DeleteUser?
    ensures var s, t, uid := states[i], states[i + 1], actions[i].uid;
            if uid in s.users && !s.users[uid].deleted then
              && t.users.Keys == s.users.Keys && (forall x | x in s.users && x != uid :: t.users[x] == s.users[x])
              && t.users[uid] == s.users[uid].(deleted := true) && t.sessions == s.sessions && t.threads == s.threads
            else t == s
  {
    assert Step(states[i], actions[i], states[i + 1]);
  }

  // An update is refused or stores exactly what it was asked to, in one step.
  lemma UpdateStores(states: seq<State>, actions: seq<Action>, i: nat)
    requires IsRun(states, actions) && i < |actions| && actions[i].UpdateUser?
    ensures var s, t, a := states[i], states[i + 1], actions[i];
            var granted := && a.uid in s.users && !s.users[a.uid].deleted
                           && (a.newEmail.Some? && a.newEmail.value != s.users[a.uid].email ==>
                                 forall x | x in s.users :: s.users[x].email != a.newEmail.value);
            if granted then
              && t.users.Keys == s.users.Keys && (forall x | x in s.users && x != a.uid :: t.users[x] == s.users[x])
              && E.Asked(s.users[a.uid], t.users[a.uid], a.newEmail, a.newRole, a.setActive)
            else t == s
  {
    var s, t, a := states[i], states[i + 1], actions[i];
    assert Step(s, a, t);
  }

  // The request is about to end every session of the user, or has done so.
  ghost predicate Ending(s0: State, s: State, tid: Id, uid: Id) {
    && tid in s.threads
    && match s.threads[tid]
       case RevokeAll(u, _, outcome) => u == uid && outcome == Completed
       case Finished(outcome) =>
         outcome == StorageError ||
         (&& outcome == Completed
          && forall x | x in s0.sessions && s0.sessions[x].userId == uid :: x in s.sessions && s.sessions[x].status != Active)
       case _ => false
  }

  lemma EndingGoesOn(s0: State, s: State, a: Action, t: State, tid: Id, uid: Id)
    requires Step(s, a, t) && Evolves(s0, s) && Evolves(s, t) && Ending(s0, s, tid, uid)
    ensures Ending(s0, t, tid, uid)
  {
    if a.Run? && a.tid == tid {
      NothingRunsFinished(s, a, t);
      RevokingEnds(s0, s, a, t, tid, uid);
    } else {
      hide Step;
      StepKeepsBooks(s, a, t);
    }
  }

  lemma RevokingEnds(s0: State, s: State, a: Action, t: State, tid: Id, uid: Id)
    requires Step(s, a, t) && a.Run? && a.tid == tid && Evolves(s0, s)
    requires s.threads[tid].RevokeAll? && s.threads[tid].uid == uid && s.threads[tid].outcome == Completed
    ensures Ending(s0, t, tid, uid)
  {
  }

  lemma {:induction false} EndingTrail(states: seq<State>, actions: seq<Action>, i: nat, k: nat, j: nat, tid: Id, uid: Id)
    requires IsRun(states, actions) && i <= k <= j < |states| && Ending(states[i], states[k], tid, uid)
    ensures Ending(states[i], states[j], tid, uid)
    decreases j - k
  {
    hide Step, Ending, Evolves;
    if k == j {
    } else {
      EndingTrail(states, actions, i, k, j - 1, tid, uid);
      RunEvolves(states, actions, i, j - 1);
      RunEvolves(states, actions, j - 1, j);
      EndingGoesOn(states[i], states[j - 1], actions[j - 1], states[j], tid, uid);
    }
  }

  lemma UpdateStartsEnding(s: State, a: Action, t: State)
    requires Step(s, a, t) && a.UpdateUser?
    requires a.uid in s.users && t != s && E.EndsSessions(s.users[a.uid], a.newRole, a.setActive)
    ensures Ending(s, t, a.tid, a.uid)
  {
    hide UpdateAndBump;
  }

  // And an update that takes away a role or the activity ends, once it has completed, every session that the user had.
  lemma UpdateEndsSessions(states: seq<State>, actions: seq<Action>, i: nat, j: nat)
    requires IsRun(states, actions) && i < j < |states| && actions[i].UpdateUser?
    requires actions[i].uid in states[i].users && states[i + 1] != states[i]
    requires E.EndsSessions(states[i].users[actions[i].uid], actions[i].newRole, actions[i].setActive)
    requires actions[i].tid in states[j].threads && states[j].threads[actions[i].tid] == Finished(Completed)
    ensures forall x | x in states[i].sessions && states[i].sessions[x].userId == actions[i].uid ::
              x in states[j].sessions && states[j].sessions[x].status != Active
  {
    hide Step;
    UpdateStartsEnding(states[i], actions[i], states[i + 1]);
    EndingTrail(states, actions, i, i + 1, j, actions[i].tid, actions[i].uid);
  }
}
