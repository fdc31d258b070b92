/** Of any number of requests racing with one refresh token, exactly one gets a new pair. */
module AuthSingleUse {
  import opened Options
  import opened AuthEntities
  import opened RowUpdates
  import opened AuthProtocol
  import opened AuthInvariants
  import opened AuthSteps

  // All requests of `racers` are about to present the refresh token of session `sid`, which nobody has used yet.
  ghost predicate Race(s: State, racers: set<Id>, sid: Id) {
    && sid in s.sessions && s.sessions[sid].status == Active && s.sessions[sid].refreshHash != NO_ID
    && RefreshAllowed(s.users, s.sessions[sid])
    && forall x | x in racers :: x in s.threads && s.threads[x] == RefreshStart(s.sessions[sid].refreshHash)
  }

  // Nothing else happens to that session or its user, and no racer meets a storage error. Time may pass.
  ghost predicate Undisturbed(s: State, a: Action, t: State, racers: set<Id>, sid: Id)
  {
    && sid in s.sessions && s.sessions[sid].userId in s.users && sid in t.sessions
    && ((a.Run? && a.tid in racers)
        || (&& t.sessions[sid] == s.sessions[sid]
            && s.sessions[sid].userId in t.users
            && t.users[s.sessions[sid].userId] == s.users[s.sessions[sid].userId]
            && forall x | x in racers && x in s.threads :: x in t.threads && t.threads[x] == s.threads[x]))
  }

  // A racer looks the session up while it can be used.
  ghost predicate LooksInTime(s: State, a: Action, racers: set<Id>, sid: Id) {
    && a.Run? && a.tid in racers && a.tid in s.threads && s.threads[a.tid].RefreshStart?
    && sid in s.sessions && IsUsable(s.sessions[sid], s.now)
  }

  ghost predicate AnyInTime(states: seq<State>, actions: seq<Action>, i: nat, j: nat, racers: set<Id>, sid: Id)
    requires j <= |actions| <= |states|
  {
    exists k :: i <= k < j && LooksInTime(states[k], actions[k], racers, sid)
  }

  // No racer has rotated the session yet; those that came too late have been turned away.
  predicate Waiting(th: Thread, sid: Id, row: Session) {
    match th
    case RefreshStart(hash) => hash == row.refreshHash
    case RefreshUser(id, seen, _) => id == sid && seen == row
    case RefreshRotate(id, seen, _, _, _) => id == sid && seen == row
    case Finished(outcome) => outcome == Rejected
    case _ => false
  }

  ghost predicate Before(s: State, racers: set<Id>, sid: Id) {
    && sid in s.sessions && s.sessions[sid].status == Active && s.sessions[sid].refreshHash != NO_ID
    && RefreshAllowed(s.users, s.sessions[sid])
    && forall x | x in racers :: x in s.threads && Waiting(s.threads[x], sid, s.sessions[sid])
  }

  // Some racer has looked the session up and goes on.
  ghost predicate UnderWay(s: State, racers: set<Id>) {
    exists x :: x in racers && x in s.threads && (s.threads[x].RefreshUser? || s.threads[x].RefreshRotate?)
  }

  // Racer `winner` has rotated it; the others can only lose.
  predicate Losing(th: Thread, sid: Id, hash: Id) {
    match th
    case RefreshStart(h) => h == hash
    case RefreshUser(id, _, _) => id == sid
    case RefreshRotate(id, _, _, _, _) => id == sid
    case RefreshLost(id, _, _) => id == sid
    case MarkReuse(id, _, _) => id == sid
    case Burn(id, _) => id == sid
    case RevokeAll(_, _, outcome) => outcome == Rejected
    case Finished(outcome) => outcome == Rejected
    case _ => false
  }

  predicate Won(th: Thread, sid: Id) {
    th.Finished? && th.outcome.NewPair? && th.outcome.rotatedFrom == Some(sid)
  }

  ghost predicate After(s: State, racers: set<Id>, sid: Id, winner: Id) {
    && sid in s.sessions && s.sessions[sid].status != Active && FindUser(s.users, s.sessions[sid].userId).Some?
    && winner in racers && winner in s.threads && Won(s.threads[winner], sid)
    && forall x | x in racers && x != winner :: x in s.threads && Losing(s.threads[x], sid, s.sessions[sid].refreshHash)
  }

  // Where the race stands, if `inTime` says whether a racer has looked the session up in time.
  ghost predicate Racing(s: State, racers: set<Id>, sid: Id, inTime: bool) {
    || (Before(s, racers, sid) && (inTime <==> UnderWay(s, racers)))
    || (inTime && exists winner :: After(s, racers, sid, winner))
  }

  lemma LookupFindsIt(s: State, sid: Id, found: Option<Id>)
    requires s in SAFE && sid in s.sessions && FoundByHash(s.sessions, s.sessions[sid].refreshHash, found)
    ensures found == Some(sid)
  {
    assert HashesUnique(s.sessions);
  }

  // A racer's step before anyone has rotated: it goes on exactly if it has looked the session up in time.
  lemma LookupSteps(s: State, t: State, tid: Id, found: Option<Id>, newId: Id, newHash: Id, racers: set<Id>, sid: Id)
    requires s in SAFE && Before(s, racers, sid) && tid in racers && s.threads[tid].RefreshStart?
    requires Enabled(s, Run(tid, found, newId, newHash)) && RunStep(s, tid, found, newId, newHash, t)
    ensures t == At(s, tid, if IsUsable(s.sessions[sid], s.now) then RefreshUser(sid, s.sessions[sid], s.now) else Finished(Rejected))
  {
    LookupFindsIt(s, sid, found);
  }

  lemma AfterLookupStep(s: State, t: State, tid: Id, racers: set<Id>, sid: Id)
    requires Before(s, racers, sid) && tid in racers && s.threads[tid].RefreshStart?
    requires t == At(s, tid, if IsUsable(s.sessions[sid], s.now) then RefreshUser(sid, s.sessions[sid], s.now) else Finished(Rejected))
    ensures Before(t, racers, sid)
    ensures UnderWay(t, racers) <==> UnderWay(s, racers) || IsUsable(s.sessions[sid], s.now)
  {
    if UnderWay(s, racers) {
      var x :| x in racers && x in s.threads && (s.threads[x].RefreshUser? || s.threads[x].RefreshRotate?);
      assert t.threads[x] == s.threads[x];
    }
    if IsUsable(s.sessions[sid], s.now) { assert t.threads[tid].RefreshUser?; }
    if UnderWay(t, racers) {
      var x :| x in racers && x in t.threads && (t.threads[x].RefreshUser? || t.threads[x].RefreshRotate?);
      assert x != tid ==> t.threads[x] == s.threads[x];
    }
  }

  lemma SigningSteps(s: State, t: State, tid: Id, found: Option<Id>, newId: Id, newHash: Id, racers: set<Id>, sid: Id)
    requires s in SAFE && Before(s, racers, sid) && tid in racers && s.threads[tid].RefreshUser?
    requires Enabled(s, Run(tid, found, newId, newHash)) && RunStep(s, tid, found, newId, newHash, t)
    ensures Before(t, racers, sid) && UnderWay(s, racers) && UnderWay(t, racers)
  {
    assert t == MintRefresh(s, tid, sid, s.sessions[sid], s.threads[tid].at, newId, newHash);
    assert t.threads[tid].RefreshRotate?;
  }

  lemma FirstRotationWins(s: State, t: State, tid: Id, found: Option<Id>, newId: Id, newHash: Id, racers: set<Id>, sid: Id)
    requires s in SAFE && Before(s, racers, sid) && tid in racers
    requires Enabled(s, Run(tid, found, newId, newHash)) && RunStep(s, tid, found, newId, newHash, t)
    requires s.threads[tid].RefreshRotate?
    ensures After(t, racers, sid, tid) && UnderWay(s, racers)
  {
    KnowThread(s, tid);
    var th := s.threads[tid];
    assert th.newId != sid;
    assert t.sessions == RotatedRows(s.sessions, sid, th.newId, th.session, th.at);
    forall x | x in racers && x != tid
      ensures x in t.threads && Losing(t.threads[x], sid, t.sessions[sid].refreshHash)
    {
      assert t.threads[x] == s.threads[x];
    }
  }

  // A racer's step after the rotation: it stays on the losing side, and its user stays.
  ghost function StillLosing(s: State, tid: Id, sid: Id): iset<State>
    requires sid in s.sessions
  {
    iset t: State |
      && tid in t.threads && t.threads == s.threads[tid := t.threads[tid]]
      && Losing(t.threads[tid], sid, s.sessions[sid].refreshHash)
      && FindUser(t.users, s.sessions[sid].userId).Some?
  }

  lemma LosingReads(s: State, t: State, tid: Id, found: Option<Id>, newId: Id, newHash: Id, sid: Id)
    requires s in SAFE && sid in s.sessions && s.sessions[sid].status != Active
    requires FindUser(s.users, s.sessions[sid].userId).Some?
    requires Enabled(s, Run(tid, found, newId, newHash)) && RunStep(s, tid, found, newId, newHash, t)
    requires Losing(s.threads[tid], sid, s.sessions[sid].refreshHash)
    requires s.threads[tid].RefreshStart? || s.threads[tid].RefreshLost?
          || (s.threads[tid].RefreshUser? && !RefreshAllowed(s.users, s.threads[tid].seen))
    ensures t in StillLosing(s, tid, sid)
  {
    if s.threads[tid].RefreshStart? { LookupFindsIt(s, sid, found); }
  }

  lemma LosingSigns(s: State, t: State, tid: Id, newId: Id, newHash: Id, sid: Id)
    requires sid in s.sessions && FindUser(s.users, s.sessions[sid].userId).Some?
    requires tid in s.threads && s.threads[tid].RefreshUser? && s.threads[tid].sid == sid
    requires s.threads[tid].seen.userId in s.users
    requires t == MintRefresh(s, tid, sid, s.threads[tid].seen, s.threads[tid].at, newId, newHash)
    ensures t in StillLosing(s, tid, sid)
  {
  }

  lemma LosingRotates(s: State, t: State, tid: Id, found: Option<Id>, newId: Id, newHash: Id, sid: Id)
    requires s in SAFE && sid in s.sessions && s.sessions[sid].status != Active
    requires FindUser(s.users, s.sessions[sid].userId).Some?
    requires Enabled(s, Run(tid, found, newId, newHash)) && RunStep(s, tid, found, newId, newHash, t)
    requires Losing(s.threads[tid], sid, s.sessions[sid].refreshHash)
    requires s.threads[tid].RefreshRotate? || s.threads[tid].MarkReuse?
    ensures t in StillLosing(s, tid, sid)
  {
    KnowThread(s, tid);
  }

  lemma LosingBurns(s: State, t: State, tid: Id, found: Option<Id>, newId: Id, newHash: Id, sid: Id)
    requires sid in s.sessions && FindUser(s.users, s.sessions[sid].userId).Some?
    requires Enabled(s, Run(tid, found, newId, newHash)) && RunStep(s, tid, found, newId, newHash, t)
    requires s.threads[tid].Burn? && OwnSession(s, s.threads[tid].sid, s.threads[tid].uid) && s.threads[tid].sid == sid
    ensures t in StillLosing(s, tid, sid)
  {
  }

  lemma LosingRevokes(s: State, t: State, tid: Id, found: Option<Id>, newId: Id, newHash: Id, sid: Id)
    requires sid in s.sessions && FindUser(s.users, s.sessions[sid].userId).Some?
    requires Enabled(s, Run(tid, found, newId, newHash)) && RunStep(s, tid, found, newId, newHash, t)
    requires Losing(s.threads[tid], sid, s.sessions[sid].refreshHash) && s.threads[tid].RevokeAll?
    ensures t in StillLosing(s, tid, sid)
  {
  }

  lemma LosingSteps(s: State, t: State, tid: Id, found: Option<Id>, newId: Id, newHash: Id, sid: Id)
    requires s in SAFE && sid in s.sessions && s.sessions[sid].status != Active
    requires FindUser(s.users, s.sessions[sid].userId).Some?
    requires Enabled(s, Run(tid, found, newId, newHash)) && RunStep(s, tid, found, newId, newHash, t)
    requires Losing(s.threads[tid], sid, s.sessions[sid].refreshHash)
    requires !s.threads[tid].Finished?
    ensures t in StillLosing(s, tid, sid)
  {
    var th := s.threads[tid];
    if th.RefreshRotate? || th.MarkReuse? { LosingRotates(s, t, tid, found, newId, newHash, sid); }
    else if th.Burn? { KnowThread(s, tid); LosingBurns(s, t, tid, found, newId, newHash, sid); }
    else if th.RevokeAll? { LosingRevokes(s, t, tid, found, newId, newHash, sid); }
    else if th.RefreshUser? && RefreshAllowed(s.users, th.seen) { LosingSigns(s, t, tid, newId, newHash, sid); }
    else { LosingReads(s, t, tid, found, newId, newHash, sid); }
  }

  lemma RacingBefore(s: State, a: Action, t: State, racers: set<Id>, sid: Id)
    requires s in SAFE && Step(s, a, t) && Before(s, racers, sid)
    requires Undisturbed(s, a, t, racers, sid)
    ensures || (Before(t, racers, sid) && (UnderWay(t, racers) <==> UnderWay(s, racers) || LooksInTime(s, a, racers, sid)))
            || (UnderWay(s, racers) && a.Run? && After(t, racers, sid, a.tid))
  {
    if a.Run? && a.tid in racers {
      RacerSteps(s, a, t, racers, sid);
    } else {
      KnowSession(s, sid);
      OthersLeaveRacers(s, t, racers, sid);
    }
  }

  lemma RacerSteps(s: State, a: Action, t: State, racers: set<Id>, sid: Id)
    requires s in SAFE && Step(s, a, t) && Before(s, racers, sid) && a.Run? && a.tid in racers
    ensures || (Before(t, racers, sid) && (UnderWay(t, racers) <==> UnderWay(s, racers) || LooksInTime(s, a, racers, sid)))
            || (UnderWay(s, racers) && After(t, racers, sid, a.tid))
  {
    hide RunStep, After, UnderWay;
    if s.threads[a.tid].RefreshRotate? {
      FirstRotationWins(s, t, a.tid, a.found, a.newId, a.newHash, racers, sid);
    } else if s.threads[a.tid].RefreshUser? {
      SigningSteps(s, t, a.tid, a.found, a.newId, a.newHash, racers, sid);
    } else {
      LookupSteps(s, t, a.tid, a.found, a.newId, a.newHash, racers, sid);
      AfterLookupStep(s, t, a.tid, racers, sid);
    }
  }

  lemma OthersLeaveRacers(s: State, t: State, racers: set<Id>, sid: Id)
    requires Before(s, racers, sid) && sid in t.sessions && t.sessions[sid] == s.sessions[sid]
    requires s.sessions[sid].userId in t.users && t.users[s.sessions[sid].userId] == s.users[s.sessions[sid].userId]
    requires forall x | x in racers && x in s.threads :: x in t.threads && t.threads[x] == s.threads[x]
    ensures Before(t, racers, sid) && (UnderWay(t, racers) <==> UnderWay(s, racers))
  {
    if UnderWay(s, racers) {
      var x :| x in racers && x in s.threads && (s.threads[x].RefreshUser? || s.threads[x].RefreshRotate?);
      assert t.threads[x] == s.threads[x];
    }
    if UnderWay(t, racers) {
      var x :| x in racers && x in t.threads && (t.threads[x].RefreshUser? || t.threads[x].RefreshRotate?);
      assert t.threads[x] == s.threads[x];
    }
  }

  lemma RacingAfter(s: State, a: Action, t: State, racers: set<Id>, sid: Id, winner: Id)
    requires s in SAFE && Step(s, a, t) && After(s, racers, sid, winner)
    requires Undisturbed(s, a, t, racers, sid)
    ensures After(t, racers, sid, winner)
  {
    RowEvolves(s, a, t, sid);
    if a.Run? && a.tid in racers { LosingSteps(s, t, a.tid, a.found, a.newId, a.newHash, sid); }
  }

  lemma RowEvolves(s: State, a: Action, t: State, sid: Id)
    requires s in SAFE && Step(s, a, t) && sid in s.sessions
    ensures sid in t.sessions && SessionEvolves(s.sessions[sid], t.sessions[sid])
  {
    hide Step;
    StepKeeps(s, a, t);
  }

  lemma RacingStep(s: State, a: Action, t: State, racers: set<Id>, sid: Id, inTime: bool)
    requires s in SAFE && Step(s, a, t) && Racing(s, racers, sid, inTime)
    requires Undisturbed(s, a, t, racers, sid)
    ensures Racing(t, racers, sid, inTime || LooksInTime(s, a, racers, sid))
  {
    hide Step, Before, After, UnderWay, LooksInTime, Undisturbed;
    if Before(s, racers, sid) && (inTime <==> UnderWay(s, racers)) {
      RacingBefore(s, a, t, racers, sid);
    } else {
      var winner :| After(s, racers, sid, winner);
      RacingAfter(s, a, t, racers, sid, winner);
    }
  }

  lemma OneMoreLook(states: seq<State>, actions: seq<Action>, i: nat, j: nat, racers: set<Id>, sid: Id)
    requires i <= j < |actions| <= |states|
    ensures AnyInTime(states, actions, i, j + 1, racers, sid)
            <==> AnyInTime(states, actions, i, j, racers, sid) || LooksInTime(states[j], actions[j], racers, sid)
  {
    hide LooksInTime;
  }

  lemma {:induction false} RaceGoesOn(states: seq<State>, actions: seq<Action>, i: nat, j: nat, racers: set<Id>, sid: Id)
    requires IsRun(states, actions) && i <= j < |states| && Race(states[i], racers, sid)
    requires forall k | i <= k < j ::
               Undisturbed(states[k], actions[k], states[k + 1], racers, sid)
    ensures Racing(states[j], racers, sid, AnyInTime(states, actions, i, j, racers, sid))
    decreases j - i
  {
    hide Step, Undisturbed, LooksInTime, After;
    if i == j {
      assert Before(states[i], racers, sid) && !UnderWay(states[i], racers);
    } else {
      RaceGoesOn(states, actions, i, j - 1, racers, sid);
      RunInvariant(states, actions, j - 1);
      RacingStep(states[j - 1], actions[j - 1], states[j], racers, sid, AnyInTime(states, actions, i, j - 1, racers, sid));
      OneMoreLook(states, actions, i, j - 1, racers, sid);
    }
  }

  // Run to completion: if any of the racers has looked the session up before it expired, however late the others came
  // and however much time went by then, exactly one has a new pair and all others were turned away; if none has, all were.
  lemma ExactlyOnePair(states: seq<State>, actions: seq<Action>, i: nat, j: nat, racers: set<Id>, sid: Id)
    returns (winner: Id)
    requires IsRun(states, actions) && i <= j < |states| && Race(states[i], racers, sid)
    requires forall k | i <= k < j ::
               Undisturbed(states[k], actions[k], states[k + 1], racers, sid)
    requires forall x | x in racers :: x in states[j].threads && states[j].threads[x].Finished?
    ensures AnyInTime(states, actions, i, j, racers, sid) ==>
              && winner in racers && Won(states[j].threads[winner], sid)
              && forall x | x in racers && x != winner :: states[j].threads[x] == Finished(Rejected)
    ensures !AnyInTime(states, actions, i, j, racers, sid) ==> forall x | x in racers :: states[j].threads[x] == Finished(Rejected)
  {
    hide Step, Undisturbed, LooksInTime;
    RaceGoesOn(states, actions, i, j, racers, sid);
    winner := 0;
    if AnyInTime(states, actions, i, j, racers, sid) {
      assert !UnderWay(states[j], racers);
      winner :| After(states[j], racers, sid, winner);
    }
  }

  // While the session has not expired, no racer comes too late.
  lemma {:induction false} UnexpiredIsInTime(states: seq<State>, actions: seq<Action>, i: nat, j: nat, racers: set<Id>, sid: Id)
    requires IsRun(states, actions) && i <= j < |states| && Race(states[i], racers, sid)
    requires forall k | i <= k < j ::
               Undisturbed(states[k], actions[k], states[k + 1], racers, sid)
    requires forall k | i <= k <= j :: sid in states[k].sessions && states[k].now < states[k].sessions[sid].expiresAt
    ensures !AnyInTime(states, actions, i, j, racers, sid) ==> Race(states[j], racers, sid)
    decreases j - i
  {
    if i == j {
    } else {
      UnexpiredIsInTime(states, actions, i, j - 1, racers, sid);
      OneMoreLook(states, actions, i, j - 1, racers, sid);
      if !AnyInTime(states, actions, i, j, racers, sid) {
        RunInvariant(states, actions, j - 1);
        RaceWaits(states[j - 1], actions[j - 1], states[j], racers, sid);
      }
    }
  }

  lemma RaceWaits(s: State, a: Action, t: State, racers: set<Id>, sid: Id)
    requires s in SAFE && Step(s, a, t) && Race(s, racers, sid) && Undisturbed(s, a, t, racers, sid)
    requires s.now < s.sessions[sid].expiresAt && !LooksInTime(s, a, racers, sid)
    ensures Race(t, racers, sid)
  {
    KnowSession(s, sid);
  }

  // So of one racer or more, undisturbed and in time, exactly one gets a pair.
  lemma ExactlyOnePairWhileUsable(states: seq<State>, actions: seq<Action>, i: nat, j: nat, racers: set<Id>, sid: Id)
    returns (winner: Id)
    requires IsRun(states, actions) && i <= j < |states| && racers != {} && Race(states[i], racers, sid)
    requires forall k | i <= k < j ::
               Undisturbed(states[k], actions[k], states[k + 1], racers, sid)
    requires forall k | i <= k <= j :: sid in states[k].sessions && states[k].now < states[k].sessions[sid].expiresAt
    requires forall x | x in racers :: x in states[j].threads && states[j].threads[x].Finished?
    ensures winner in racers && Won(states[j].threads[winner], sid)
    ensures forall x | x in racers && x != winner :: states[j].threads[x] == Finished(Rejected)
  {
    hide Step, Undisturbed, LooksInTime;
    winner := ExactlyOnePair(states, actions, i, j, racers, sid);
    UnexpiredIsInTime(states, actions, i, j, racers, sid);
    var x :| x in racers;
    assert states[j].threads[x].Finished?;
  }
}
