/** Who gets into a gathering: joining by ID, and what no request of any kind gets around. */
module Admission {
  import opened Common
  import opened Gatherings
  import opened Handlers
  import opened Invariants
  import opened Runs
  import opened AutoMatchmaking
  import opened Authority
  import opened Memberships
  import opened Wishes
  import opened Matching

  // ---- Joining by ID ----------------------------------------------------------------------------

  /** Why a player may not enter a gathering as it stands, whatever the request. */
  function Closed(env: Env, pid: PID, g: Gathering): Option<Error> {
    if !g.info.openParticipation then Some(PermissionDenied)
    else if g.info.participationPolicy == 98 && !env.friendLookup then Some(NotImplemented)
    else if !Befriended(env, pid, g.info) then Some(NotFriend)
    else None
  }

  /** The gathering with more heads of one player, and nothing else changed but the count. */
  ghost predicate Entered(g: Gathering, after: Gathering, pid: PID, count: UInt16) {
    var heads := if count == 0 then 1 else count;
    && |after.participants| == |g.participants| + heads && after.participants[..|g.participants|] == g.participants
    && (forall k :: |g.participants| <= k < |after.participants| ==> after.participants[k] == pid)
    && after.info == g.info.(participationCount := |after.participants| % 0x1_0000_0000) && after.url == g.url
  }

  lemma JoinedIsEntered(g: Gathering, pid: PID, count: UInt16)
    ensures Entered(g, Joined(g, pid, Heads(count)), pid, count)
  {
    CopiesFacts<PID>(pid, Heads(count));
    hide Copies;
    var after := Joined(g, pid, Heads(count));
    forall k | |g.participants| <= k < |after.participants| ensures after.participants[k] == pid {
      assert Copies(pid, Heads(count))[k - |g.participants|] in Copies(pid, Heads(count));
    }
  }

  /** Why a request to join by ID is refused, decided by the gathering's record. ParticipateIn asks for no password. */
  function Refusal(env: Env, s: State, pid: PID, gid: nat, count: UInt16, message: string, plain: bool): Option<Error> {
    if |message| > 256 then Some(InvalidArgument)
    else if gid !in s.sessions then Some(SessionVoid)
    else
      var g := s.sessions[gid];
      if !plain && (g.info.userPasswordEnabled || g.info.systemPasswordEnabled) then Some(PermissionDenied)
      else if Closed(env, pid, g).Some? then Closed(env, pid, g)
      else if pid in g.participants then Some(AlreadyParticipatedGathering)
      else if !Holds(g, count) then Some(SessionFull)
      else None
  }

  lemma RefusalIsTheEffects(env: Env, s: State, pid: PID, gid: nat, count: UInt16, message: string, plain: bool)
    ensures var refusal, effect := Refusal(env, s, pid, gid, count, message, plain),
                                   JoinEffect(env, s, pid, gid, count, message, !plain);
            if refusal.Some? then effect == Effect([], Failed(refusal.value))
            else effect == Effect([Admit(gid, pid, Heads(count), message)],
                                  if plain then Acknowledged else SessionKey(s.sessions[gid].info.sessionKey))
  {
    if gid in s.sessions {
      ClosedIsRefused(env, pid, s.sessions[gid]);
      HoldsIsRoom(s.sessions[gid], count);
    }
    hide Closed, CanJoin, Full, Holds, Heads;
  }

  lemma ClosedIsRefused(env: Env, pid: PID, g: Gathering)
    ensures CanJoin(env, pid, g.info) == Closed(env, pid, g)
  {
  }

  lemma HoldsIsRoom(g: Gathering, count: UInt16)
    ensures Holds(g, count) <==> !Full(g, Heads(count))
  {
  }

  /** A request to join by ID changes nothing when it is refused, and else lets its caller into that gathering. */
  lemma JoiningByID(env: Env, s: State, pid: PID, gid: nat, count: UInt16, message: string, plain: bool)
    ensures var request := if plain then ParticipateIn(gid, message) else JoinMatchmakeSession(gid, count, message);
            var reply, t := Handle(env, s, pid, request).reply, Step(env, s, pid, request);
            var heads := if plain then 1 else count;
            var refusal := Refusal(env, s, pid, gid, heads, message, plain);
            if refusal.Some? then reply == Failed(refusal.value) && t == s
            else
              && reply == (if plain then Acknowledged else SessionKey(s.sessions[gid].info.sessionKey))
              && t.sessions.Keys == s.sessions.Keys && Entered(s.sessions[gid], t.sessions[gid], pid, heads)
              && forall other :: other in s.sessions && other != gid ==> t.sessions[other] == s.sessions[other]
  {
    var heads := if plain then 1 else count;
    RefusalIsTheEffects(env, s, pid, gid, heads, message, plain);
    OneMove(env, s, Admit(gid, pid, Heads(heads), message));
    assert ApplyAll(env, s, []) == s;
    if gid in s.sessions { JoinedIsEntered(s.sessions[gid], pid, heads); }
    hide ApplyAll, Joined, JoinEvents, Entered, JoinEffect, Closed, Holds;
  }

  // ---- Getting in by any request ----------------------------------------------------------------

  /** The one move by which a request lets its caller into a gathering that it does not create. */
  lemma AdmittingMove(env: Env, s: State, pid: PID, request: Request, gid: nat, p: PID)
    requires Possible(env, s, pid, request) && !Taken(env, s, pid, request, gid)
    requires !Within(s, p, gid) && Within(Step(env, s, pid, request), p, gid)
    ensures var moves := Handle(env, s, pid, request).moves;
            && p == pid && moves != [] && Last(moves).Admit? && Last(moves).gid == gid
            && (request.AutoMatchmake? || request.JoinMatchmakeSession? || request.ParticipateIn?)
  {
    hide Handle, Possible, Within, LetsIn;
    var moves := Handle(env, s, pid, request).moves;
    if p != pid || !(LeavesAll(request) || request.JoinMatchmakeSession? || request.ParticipateIn?) {
      HandlersLetIn(env, s, pid, request, p);
      NobodyLetIn(env, s, moves, p, gid);
    } else if LeavesAll(request) {
      LastMoveLetsIn(env, s, pid, request, gid);
      CreationsDestroyNothing(env, s, pid, request);
    } else {
      JoinsMoveOwn(env, s, pid, request);
      OnlyMoveLetsIn(env, s, moves, pid, gid);
    }
  }

  lemma LastMoveLetsIn(env: Env, s: State, pid: PID, request: Request, gid: nat)
    requires Possible(env, s, pid, request) && !Taken(env, s, pid, request, gid) && LeavesAll(request)
    requires !Within(s, pid, gid) && Within(Step(env, s, pid, request), pid, gid)
    ensures var moves := Handle(env, s, pid, request).moves;
            moves != [] && Last(moves).Admit? && Last(moves).gid == gid
  {
    HandlersMoveOwn(env, s, pid, request);
    var moves := Handle(env, s, pid, request).moves;
    hide Handle, Possible, Within, Apply, Moving;
    if moves == [] {
      NobodyLetIn(env, s, moves, pid, gid);
    } else {
      LeavesAreLegal(env, s, Init(moves));
      var mid := ApplyAll(env, s, Init(moves));
      if Within(mid, pid, gid) { NobodyLetIn(env, s, Init(moves), pid, gid); }
      MoveLetsIn(env, mid, Last(moves), pid, gid);
    }
  }

  lemma OnlyMoveLetsIn(env: Env, s: State, moves: seq<Move>, pid: PID, gid: nat)
    requires |moves| <= 1 && !Within(s, pid, gid) && Within(ApplyAll(env, s, moves), pid, gid)
    requires forall move :: move in moves ==> !move.Open?
    ensures moves != [] && Last(moves).Admit? && Last(moves).gid == gid
  {
    hide Within, Apply;
    if moves == [] {
      NobodyLetIn(env, s, moves, pid, gid);
    } else {
      assert moves == [moves[0]] && moves[0] in moves;
      OneMove(env, s, moves[0]);
      MoveLetsIn(env, s, moves[0], pid, gid);
    }
  }

  /** Whoever gets into somebody's live gathering made the request, and the gathering was open to players like that.
      Behind a password it was no request to join by ID, nor automatic matchmaking without criteria. */
  lemma EntrantsAreAdmitted(env: Env, s: State, pid: PID, request: Request, gid: nat, p: PID)
    requires Inv(s) && Possible(env, s, pid, request) && !Taken(env, s, pid, request, gid)
    requires gid in s.sessions && !Within(s, p, gid) && Within(Step(env, s, pid, request), p, gid)
    ensures p == pid && Closed(env, p, s.sessions[gid]).None?
    ensures request.JoinMatchmakeSession? || (request.AutoMatchmake? && request.criterias == []) ==>
              !s.sessions[gid].info.userPasswordEnabled && !s.sessions[gid].info.systemPasswordEnabled
  {
    AdmittingMove(env, s, pid, request, gid, p);
    hide Handle, Possible, Inv, Closed, Taken;
    if request.AutoMatchmake? {
      MatchedIsOpen(env, s, pid, request, gid);
    } else {
      JoinedIsOpen(env, s, pid, request, gid);
    }
  }

  lemma JoinedIsOpen(env: Env, s: State, pid: PID, request: Request, gid: nat)
    requires Possible(env, s, pid, request) && (request.JoinMatchmakeSession? || request.ParticipateIn?)
    requires gid in s.sessions
    requires var moves := Handle(env, s, pid, request).moves;
             moves != [] && Last(moves).Admit? && Last(moves).gid == gid
    ensures Closed(env, pid, s.sessions[gid]).None?
    ensures request.JoinMatchmakeSession? ==>
              !s.sessions[gid].info.userPasswordEnabled && !s.sessions[gid].info.systemPasswordEnabled
  {
    hide ApplyAll, Joined;
  }

  lemma MatchedIsOpen(env: Env, s: State, pid: PID, request: Request, gid: nat)
    requires Inv(s) && Possible(env, s, pid, request) && request.AutoMatchmake?
    requires gid in s.sessions && !Within(s, pid, gid)
    requires var moves := Handle(env, s, pid, request).moves;
             moves != [] && Last(moves).Admit? && Last(moves).gid == gid
    ensures Closed(env, pid, s.sessions[gid]).None?
    ensures request.criterias == [] ==>
              !s.sessions[gid].info.userPasswordEnabled && !s.sessions[gid].info.systemPasswordEnabled
  {
    RefusedMovesNothing(env, s, pid, request);
    LastIsChosen(env, s, pid, request, gid);
    hide Handle, Possible, ValidSession;
    ChosenStood(env, s, pid, request);
    LeftByStranger(gid, s.sessions[gid], pid);
    hide Left, PassesSome, Choice, Consistent;
  }

  lemma LastIsChosen(env: Env, s: State, pid: PID, request: Request, gid: nat)
    requires Accepted(env, s, pid, request)
    requires var moves := Handle(env, s, pid, request).moves;
             moves != [] && Last(moves).Admit? && Last(moves).gid == gid
    ensures Choice(env, s, pid, request).Some? && Choice(env, s, pid, request).value.info.id == gid
  {
    AutoReply(env, s, pid, request);
    hide Handle, Accepted, Opened, Joined, NoRoomForOne, Choice;
    DeparturesAreLeaves(request.order, pid, Disconnect);
    hide Departures;
  }

  lemma RefusedMovesNothing(env: Env, s: State, pid: PID, request: Request)
    requires Inv(s) && Possible(env, s, pid, request) && request.AutoMatchmake?
    ensures Handle(env, s, pid, request).moves != [] ==> Accepted(env, s, pid, request)
  {
    hide Choose, CreateEffect, ApplyAll, Possible, Inv;
  }

  // ---- Passwords and closing, over runs ---------------------------------------------------------

  /** The request changes the settings of the gathering, and is accepted. */
  ghost predicate Updates(env: Env, s: State, pid: PID, request: Request, gid: nat)
    requires Possible(env, s, pid, request)
  {
    request.UpdateSession? && request.session.id == gid && Handle(env, s, pid, request).reply == Acknowledged
  }

  /** The request opens or closes the gathering, and is accepted. */
  ghost predicate Sets(env: Env, s: State, pid: PID, request: Request, gid: nat, open: bool)
    requires Possible(env, s, pid, request)
  {
    request == Mutate(gid, SetOpen(open)) && Handle(env, s, pid, request).reply == Acknowledged
  }

  /** Short of an update by its owner, a gathering keeps its password, and is open as it was last set to be. */
  lemma StepKeepsDoor(env: Env, s: State, pid: PID, request: Request, gid: nat)
    requires Inv(s) && Possible(env, s, pid, request)
    requires !Taken(env, s, pid, request, gid) && !Updates(env, s, pid, request, gid)
    requires gid in s.sessions && gid in Step(env, s, pid, request).sessions
    ensures var was, now := s.sessions[gid].info, Step(env, s, pid, request).sessions[gid].info;
            && now.userPasswordEnabled == was.userPasswordEnabled
            && now.openParticipation == if Sets(env, s, pid, request, gid, true) then true
                                        else if Sets(env, s, pid, request, gid, false) then false
                                        else was.openParticipation
  {
    hide Handle, Step, Possible, Inv, Taken;
    if OnlyMoves(request) {
      MovesKeepDoor(env, s, pid, request, gid);
    } else {
      RevisionsKeepDoor(env, s, pid, request, gid);
    }
  }

  lemma MovesKeepDoor(env: Env, s: State, pid: PID, request: Request, gid: nat)
    requires Possible(env, s, pid, request) && OnlyMoves(request) && !Taken(env, s, pid, request, gid)
    requires gid in s.sessions && gid in Step(env, s, pid, request).sessions
    ensures Settings(Step(env, s, pid, request).sessions[gid].info) == Settings(s.sessions[gid].info)
  {
    hide Handle, Possible, Settings;
    HandlersMoveOwn(env, s, pid, request);
    var moves := Handle(env, s, pid, request).moves;
    assert ApplyAll(env, s, []) == s;
    hide ApplyAll;
    if moves != [] { MovesDrift(env, s, moves, pid, gid); }
  }

  lemma RevisionsKeepDoor(env: Env, s: State, pid: PID, request: Request, gid: nat)
    requires Inv(s) && Possible(env, s, pid, request) && !OnlyMoves(request) && !Updates(env, s, pid, request, gid)
    requires gid in s.sessions && gid in Step(env, s, pid, request).sessions
    ensures var was, now := s.sessions[gid].info, Step(env, s, pid, request).sessions[gid].info;
            && now.userPasswordEnabled == was.userPasswordEnabled
            && now.openParticipation == if Sets(env, s, pid, request, gid, true) then true
                                        else if Sets(env, s, pid, request, gid, false) then false
                                        else was.openParticipation
  {
    var moves := Handle(env, s, pid, request).moves;
    HandlersRevise(env, s, pid, request);
    RevisionIsSmall(env, s, pid, request, gid);
    assert ApplyAll(env, s, []) == s;
    hide Handle, ApplyAll, Possible, Inv;
    if moves != [] { RevisionResult(env, s, moves, gid); }
  }

  /** The first move of an effect leaves the door of a gathering as it was. */
  ghost predicate LeavesDoor(s: State, effect: Effect, gid: nat) {
    gid in s.sessions && effect.moves != [] && effect.moves[0].Revise? && effect.moves[0].gid == gid ==>
      && effect.moves[0].info.userPasswordEnabled == s.sessions[gid].info.userPasswordEnabled
      && effect.moves[0].info.openParticipation == s.sessions[gid].info.openParticipation
  }

  lemma HostingLeavesDoor(s: State, pid: PID, g: nat, url: Option<string>, migrateOwner: bool, candidates: seq<PID>,
                          gid: nat)
    ensures LeavesDoor(s, HostEffect(s, pid, g, url), gid)
    ensures LeavesDoor(s, UpdateSessionHostEffect(s, pid, g, migrateOwner), gid)
    ensures LeavesDoor(s, MigrateEffect(s, pid, g, candidates), gid)
    ensures LeavesDoor(s, UnregisterEffect(s, pid, g), gid)
  {
    hide FirstParticipant, Dedup;
  }

  lemma MutationMovesDoor(s: State, pid: PID, g: nat, mutation: Mutation, gid: nat)
    ensures var effect := MutateEffect(s, pid, g, mutation);
            && (effect.reply == Acknowledged <==> effect.moves != [])
            && (effect.moves != [] ==>
                  && effect.moves[0].Revise? && effect.moves[0].gid == g && g in s.sessions
                  && effect.moves[0].info.userPasswordEnabled == s.sessions[g].info.userPasswordEnabled
                  && effect.moves[0].info.openParticipation
                     == if mutation.SetOpen? then mutation.open else s.sessions[g].info.openParticipation)
  {
  }

  lemma UpdateIsElsewhere(s: State, pid: PID, session: MatchmakeSession, valid: bool, gid: nat)
    requires Inv(s) && !(session.id == gid && UpdateEffect(s, pid, session, valid).reply == Acknowledged)
    ensures LeavesDoor(s, UpdateEffect(s, pid, session, valid), gid)
  {
  }

  lemma RevisionIsSmall(env: Env, s: State, pid: PID, request: Request, gid: nat)
    requires Inv(s) && Possible(env, s, pid, request) && !OnlyMoves(request) && !Updates(env, s, pid, request, gid)
    requires gid in s.sessions
    ensures var effect, was := Handle(env, s, pid, request), s.sessions[gid].info;
            var revised := effect.moves != [] && effect.moves[0].Revise? && effect.moves[0].gid == gid;
            && (revised ==>
                  && effect.moves[0].info.userPasswordEnabled == was.userPasswordEnabled
                  && effect.moves[0].info.openParticipation
                     == if Sets(env, s, pid, request, gid, true) then true
                        else if Sets(env, s, pid, request, gid, false) then false
                        else was.openParticipation)
            && (!revised ==> !Sets(env, s, pid, request, gid, true) && !Sets(env, s, pid, request, gid, false))
  {
    hide Inv, Possible, ApplyAll, UpdateEffect, MutateEffect, HostEffect, UpdateSessionHostEffect, MigrateEffect;
    hide UnregisterEffect;
    match request
    case UpdateSession(session, _, _) => UpdateIsElsewhere(s, pid, session, request.SettingsAllowed(), gid);
    case Mutate(g, mutation) => MutationMovesDoor(s, pid, g, mutation, gid);
    case LaunchSession(g, url) => HostingLeavesDoor(s, pid, g, Some(url), false, [], gid);
    case UpdateSessionURL(g, url) =>
      HostingLeavesDoor(s, pid, g, if url != "" then Some(url) else None, false, [], gid);
    case UpdateSessionHost(g, migrateOwner) => HostingLeavesDoor(s, pid, g, None, migrateOwner, [], gid);
    case MigrateGatheringOwnership(g, candidates) => HostingLeavesDoor(s, pid, g, None, false, candidates, gid);
    case UnregisterGathering(g) => HostingLeavesDoor(s, pid, g, None, false, [], gid);
  }

  lemma CreationIsRequested(env: Env, s: State, pid: PID, request: Request)
    requires Possible(env, s, pid, request) && LeavesAll(request)
    ensures var moves := Handle(env, s, pid, request).moves;
            moves != [] && Last(moves).Open? ==> !request.ConnectionEnded? && Last(moves).request == request.session
  {
    hide ApplyAll, Choose, JoinError, Opened, Joined, CanJoin;
    DeparturesAreLeaves(request.order, pid, Disconnect);
  }

  /** The gathering that a request creates has a password exactly when the described session has one. */
  lemma CreationLocks(env: Env, s: State, pid: PID, request: Request)
    requires Possible(env, s, pid, request) && TakesID(env, s, pid, request)
    requires s.nextGatheringID in Step(env, s, pid, request).sessions
    ensures !request.ConnectionEnded? && LeavesAll(request)
    ensures Step(env, s, pid, request).sessions[s.nextGatheringID].info.userPasswordEnabled
            <==> request.session.userPassword != ""
  {
    hide Possible, Handle, Departures, JoinEvents;
    CreationsLeaveAll(env, s, pid, request);
    ChangesFollowDepartures(env, s, pid, request);
    CreationIsRequested(env, s, pid, request);
    DeparturesAreLeaves(request.order, pid, Disconnect);
    var moves := Handle(env, s, pid, request).moves;
    LeavesAreLegal(env, s, Init(moves));
  }

  /** The gathering was created with a password, and its settings were not updated since. */
  ghost predicate KeptLocked(env: Env, calls: seq<Call>, gid: nat)
    requires Reachable(env, calls)
  {
    calls != [] &&
    var s, pid, request := Final(env, Init(calls)), Last(calls).pid, Last(calls).request;
    if Taken(env, s, pid, request, gid)
    then LeavesAll(request) && !request.ConnectionEnded? && request.session.userPassword != ""
    else KeptLocked(env, Init(calls), gid) && !Updates(env, s, pid, request, gid)
  }

  /** A gathering created with a password lets nobody join by ID until its owner updates its settings. */
  lemma {:induction false} PasswordKeepsOut(env: Env, calls: seq<Call>, gid: nat, pid: PID, count: UInt16,
                                            message: string)
    requires Reachable(env, calls) && KeptLocked(env, calls, gid)
    ensures var s, request := Final(env, calls), JoinMatchmakeSession(gid, count, message);
            && (gid in s.sessions ==> s.sessions[gid].info.userPasswordEnabled)
            && Handle(env, s, pid, request).reply.Failed? && Step(env, s, pid, request) == s
  {
    StaysLocked(env, calls, gid);
    hide Reachable, Final, KeptLocked, Handle, Step;
    JoiningByID(env, Final(env, calls), pid, gid, count, message, false);
  }

  lemma {:induction false} StaysLocked(env: Env, calls: seq<Call>, gid: nat)
    requires Reachable(env, calls) && KeptLocked(env, calls, gid)
    ensures gid in Final(env, calls).sessions ==> Final(env, calls).sessions[gid].info.userPasswordEnabled
  {
    var s, pid, request := Final(env, Init(calls)), Last(calls).pid, Last(calls).request;
    RunKeepsInv(env, Init(calls));
    hide Step, Possible, Inv, TakesID, Handle;
    if gid in Final(env, calls).sessions {
      if Taken(env, s, pid, request, gid) {
        CreationLocks(env, s, pid, request);
      } else {
        StaysLocked(env, Init(calls), gid);
        StepKeepsLife(env, s, pid, request, gid);
        StepKeepsDoor(env, s, pid, request, gid);
      }
    }
  }

  lemma StepKeepsLife(env: Env, s: State, pid: PID, request: Request, gid: nat)
    requires Possible(env, s, pid, request) && !Taken(env, s, pid, request, gid)
    requires gid in Step(env, s, pid, request).sessions
    ensures gid in s.sessions
  {
    hide Step, TakesID, Possible;
    StepIDs(env, s, pid, request);
  }

  /** The gathering was closed by its owner, and neither opened nor updated since. */
  ghost predicate KeptClosed(env: Env, calls: seq<Call>, gid: nat)
    requires Reachable(env, calls)
  {
    calls != [] &&
    var s, pid, request := Final(env, Init(calls)), Last(calls).pid, Last(calls).request;
    && !Taken(env, s, pid, request, gid) && !Updates(env, s, pid, request, gid)
    && !Sets(env, s, pid, request, gid, true)
    && (Sets(env, s, pid, request, gid, false) || KeptClosed(env, Init(calls), gid))
  }

  lemma {:induction false} StaysClosed(env: Env, calls: seq<Call>, gid: nat)
    requires Reachable(env, calls) && KeptClosed(env, calls, gid)
    ensures gid in Final(env, calls).sessions ==> !Final(env, calls).sessions[gid].info.openParticipation
  {
    var s, pid, request := Final(env, Init(calls)), Last(calls).pid, Last(calls).request;
    RunKeepsInv(env, Init(calls));
    hide Step, Possible, Inv, Taken, Handle;
    if gid in Final(env, calls).sessions {
      StepKeepsLife(env, s, pid, request, gid);
      StepKeepsDoor(env, s, pid, request, gid);
      if !Sets(env, s, pid, request, gid, false) { StaysClosed(env, Init(calls), gid); }
    }
  }

  /** A gathering that its owner has closed lets nobody in, by whatever request, until it is opened or updated. */
  lemma ClosedLetsNobodyIn(env: Env, calls: seq<Call>, gid: nat, pid: PID, request: Request, p: PID)
    requires Reachable(env, calls) && KeptClosed(env, calls, gid) && Possible(env, Final(env, calls), pid, request)
    requires !Taken(env, Final(env, calls), pid, request, gid)
    requires Within(Step(env, Final(env, calls), pid, request), p, gid)
    ensures Within(Final(env, calls), p, gid)
  {
    StaysClosed(env, calls, gid);
    RunKeepsInv(env, calls);
    hide Reachable, Final, Step, Possible, Inv, Taken, KeptClosed;
    var s := Final(env, calls);
    if !Within(s, p, gid) {
      StepKeepsLife(env, s, pid, request, gid);
      EntrantsAreAdmitted(env, s, pid, request, gid, p);
    }
  }
}
