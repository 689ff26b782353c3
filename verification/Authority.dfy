/** Who may change what about a gathering: over any one request, its owner, its host, its key and its settings. */
module Authority {
  import opened Common
  import opened Gatherings
  import opened Handlers
  import opened Invariants
  import opened Runs
  import opened HeadCounts

  /** The two ways of passing ownership on: the owner names a participant, or a participant takes over where it may. */
  ghost predicate MayPassOwnership(s: State, pid: PID, request: Request, gid: nat, newOwner: PID)
    requires gid in s.sessions
  {
    var g := s.sessions[gid];
    || (request.MigrateGatheringOwnership? && request.gid == gid && g.info.ownerPID == pid
        && newOwner in request.candidates && newOwner in g.participants)
    || (request.UpdateSessionHost? && request.gid == gid && request.migrateOwner && g.info.flags.changeOwnerByOtherHost
        && newOwner == pid && pid in g.participants)
  }

  /** The requests that take their caller out of the gathering. */
  predicate Departs(request: Request, gid: nat) {
    (request.LeaveGathering? && request.gid == gid) || LeavesAll(request)
  }

  /** The two ways of passing hosting on: a participant claims it, or the host leaves and it falls to the owner. Only
      automatic matchmaking can bring the old host back in the same request. */
  ghost predicate MayPassHosting(s: State, pid: PID, request: Request, gid: nat, after: Gathering)
    requires gid in s.sessions
  {
    var g, newHost := s.sessions[gid], after.info.hostPID;
    || ((request.LaunchSession? || request.UpdateSessionURL? || request.UpdateSessionHost?) && request.gid == gid
        && newHost == pid && pid in g.participants)
    || (Departs(request, gid) && g.info.hostPID == pid && pid in g.participants && newHost == g.info.ownerPID
        && (pid !in after.participants || request.AutoMatchmake?))
  }

  /** What a request may do to a gathering that lives through it; nobody is let in or put out but the caller. */
  ghost predicate Guarded(s: State, pid: PID, request: Request, gid: nat, after: Gathering)
    requires gid in s.sessions
  {
    var was, now := s.sessions[gid].info, after.info;
    && now.sessionKey == was.sessionKey && now.startedTime == was.startedTime
    && (now.ownerPID != was.ownerPID ==> MayPassOwnership(s, pid, request, gid, now.ownerPID))
    && (now.hostPID != was.hostPID ==> MayPassHosting(s, pid, request, gid, after))
    && (Settings(now) != Settings(was) ==> was.ownerPID == pid)
    && Without(after.participants, pid) == Without(s.sessions[gid].participants, pid)
  }

  /** The record without its key, roles and count: what only the owner may change. */
  function Settings(info: MatchmakeSession): MatchmakeSession {
    info.(ownerPID := 0, hostPID := 0, sessionKey := 0, startedTime := 0, participationCount := 0)
  }

  /** What departures of pid, and at most one join of it after them, do to a gathering. */
  ghost predicate Drifted(before: Gathering, after: Gathering, pid: PID, joins: bool) {
    var was, now := before.info, after.info;
    && now.sessionKey == was.sessionKey && now.startedTime == was.startedTime && now.ownerPID == was.ownerPID
    && (now.hostPID != was.hostPID ==>
          was.hostPID == pid && now.hostPID == was.ownerPID && (joins || pid !in after.participants))
    && (!joins && pid !in before.participants ==> pid !in after.participants)
    && Settings(now) == Settings(was)
    && Without(after.participants, pid) == Without(before.participants, pid)
  }

  /** No settings change, and all joins and departures are pid's. */
  ghost predicate Moving(moves: seq<Move>, pid: PID) {
    NoRevisions(moves) && forall i :: 0 <= i < |moves| && (moves[i].Leave? || moves[i].Admit?) ==> moves[i].pid == pid
  }

  /** The request creates a gathering under this ID. */
  ghost predicate Taken(env: Env, s: State, pid: PID, request: Request, gid: nat)
    requires Possible(env, s, pid, request)
  {
    gid == s.nextGatheringID && TakesID(env, s, pid, request)
  }

  /** A gathering of one console, which owns and hosts it. */
  ghost predicate OwnedAlone(g: Gathering, pid: PID) {
    g.info.ownerPID == pid && g.info.hostPID == pid && forall p :: p in g.participants ==> p == pid
  }

  lemma MoveDrifts(env: Env, s: State, move: Move, pid: PID, gid: nat)
    requires gid in s.sessions && gid in Apply(env, s, move).sessions && (gid == s.nextGatheringID ==> !Creates([move]))
    requires !move.Revise? && (move.Leave? || move.Admit? ==> move.pid == pid)
    ensures Drifted(s.sessions[gid], Apply(env, s, move).sessions[gid], pid, move.Admit? && move.gid == gid)
    ensures move.Admit? ==> Apply(env, s, move).sessions[gid].info.hostPID == s.sessions[gid].info.hostPID
  {
    hide JoinEvents, LeaveEvents, Joined, Left, Without;
    var g := s.sessions[gid];
    JoinDrifts(g, pid, if move.Admit? then move.heads else 0);
    LeaveDrifts(g, pid);
    assert Drifted(g, g, pid, false);
    hide Drifted, Opened, EndsWith;
  }

  lemma JoinDrifts(g: Gathering, pid: PID, heads: UInt16)
    ensures Drifted(g, Joined(g, pid, heads), pid, true) && Joined(g, pid, heads).info.hostPID == g.info.hostPID
  {
    WithoutConcat(g.participants, Copies(pid, heads), pid);
    WithoutOwnCopies(pid, heads);
    hide Copies, Without;
  }

  lemma LeaveDrifts(g: Gathering, pid: PID)
    ensures Drifted(g, Left(g, pid), pid, false)
  {
    WithoutFacts(Without(g.participants, pid), pid);
    WithoutFacts(g.participants, pid);
    hide Without;
  }

  lemma {:induction false} WithoutOwnCopies(pid: PID, n: nat)
    ensures Without(Copies(pid, n), pid) == []
  {
    if n == 0 {
    } else {
      WithoutOwnCopies(pid, n - 1);
    }
  }

  lemma {:induction false} LeavesDrift(env: Env, s: State, moves: seq<Move>, pid: PID, gid: nat)
    requires OnlyLeaves(moves) && Moving(moves, pid)
    requires gid in s.sessions && gid in ApplyAll(env, s, moves).sessions
    ensures Drifted(s.sessions[gid], ApplyAll(env, s, moves).sessions[gid], pid, false)
  {
    if moves == [] {
    } else {
      hide Apply;
      LeavesAreLegal(env, s, Init(moves));
      var mid := ApplyAll(env, s, Init(moves));
      MoveNextID(env, mid, Last(moves));
      LeavesDrift(env, s, Init(moves), pid, gid);
      MoveDrifts(env, mid, Last(moves), pid, gid);
    }
  }

  lemma MovesDrift(env: Env, s: State, moves: seq<Move>, pid: PID, gid: nat)
    requires moves != [] && OnlyLeaves(Init(moves)) && Moving(moves, pid)
    requires gid in s.sessions && gid in ApplyAll(env, s, moves).sessions
    requires gid == s.nextGatheringID ==> !Creates(moves)
    ensures Drifted(s.sessions[gid], ApplyAll(env, s, moves).sessions[gid], pid,
                    Last(moves).Admit? && Last(moves).gid == gid)
  {
    hide Apply;
    LeavesAreLegal(env, s, Init(moves));
    var mid := ApplyAll(env, s, Init(moves));
    MoveNextID(env, mid, Last(moves));
    LeavesDrift(env, s, Init(moves), pid, gid);
    MoveDrifts(env, mid, Last(moves), pid, gid);
  }

  lemma {:induction false} DeparturesAreOwn(order: seq<nat>, pid: PID)
    ensures Moving(Departures(order, pid, Disconnect), pid)
  {
    if order == [] {
    } else {
      DeparturesAreOwn(Init(order), pid);
    }
  }

  /** The requests that only let players in and out. */
  predicate OnlyMoves(request: Request) {
    LeavesAll(request) || request.JoinMatchmakeSession? || request.ParticipateIn? || request.LeaveGathering?
  }

  lemma HandlersMoveOwn(env: Env, s: State, pid: PID, request: Request)
    requires Possible(env, s, pid, request) && OnlyMoves(request)
    ensures Moving(Handle(env, s, pid, request).moves, pid)
    ensures var moves := Handle(env, s, pid, request).moves; moves != [] ==> OnlyLeaves(Init(moves))
  {
    hide Handle, Possible;
    if request.JoinMatchmakeSession? || request.ParticipateIn? || request.LeaveGathering? {
      JoinsMoveOwn(env, s, pid, request);
    } else {
      CreationsMoveOwn(env, s, pid, request);
      NothingRevised(env, s, pid, request);
    }
  }

  lemma JoinsMoveOwn(env: Env, s: State, pid: PID, request: Request)
    requires Possible(env, s, pid, request)
    requires request.JoinMatchmakeSession? || request.ParticipateIn? || request.LeaveGathering?
    ensures Moving(Handle(env, s, pid, request).moves, pid) && |Handle(env, s, pid, request).moves| <= 1
    ensures forall move :: move in Handle(env, s, pid, request).moves ==>
              if request.LeaveGathering? then move.Leave? && move.gid == request.gid else move.Admit?
  {
    hide ApplyAll, Choose, JoinError, Joined, CanJoin;
  }

  lemma NothingRevised(env: Env, s: State, pid: PID, request: Request)
    requires Possible(env, s, pid, request) && Moving(Handle(env, s, pid, request).moves, pid)
    requires LeavesAll(request)
    ensures var moves := Handle(env, s, pid, request).moves; moves != [] ==> OnlyLeaves(Init(moves))
  {
    HandlersAreShaped(env, s, pid, request);
    CreationsDestroyNothing(env, s, pid, request);
    hide Handle, Possible;
  }

  lemma CreationsDestroyNothing(env: Env, s: State, pid: PID, request: Request)
    requires Possible(env, s, pid, request)
    requires LeavesAll(request)
    ensures forall i :: 0 <= i < |Handle(env, s, pid, request).moves| ==>
              var move := Handle(env, s, pid, request).moves[i];
              !move.Destroy? && (move.Admit? ==> request.AutoMatchmake?)
  {
    hide ApplyAll, Choose, JoinError, Opened, Joined;
    DeparturesAreLeaves(request.order, pid, Disconnect);
  }

  lemma CreationsMoveOwn(env: Env, s: State, pid: PID, request: Request)
    requires Possible(env, s, pid, request)
    requires LeavesAll(request)
    ensures Moving(Handle(env, s, pid, request).moves, pid)
  {
    hide ApplyAll, Choose, JoinError, Opened, Joined;
    DeparturesAreOwn(request.order, pid);
  }

  /** A request that leaves its caller where it was changes no host by itself. */
  lemma StayingKeepsHost(env: Env, s: State, pid: PID, request: Request, gid: nat)
    requires Possible(env, s, pid, request) && OnlyMoves(request) && !Departs(request, gid)
    requires gid in s.sessions && s.sessions[gid].info.id == gid && gid in Step(env, s, pid, request).sessions
    ensures Step(env, s, pid, request).sessions[gid].info.hostPID == s.sessions[gid].info.hostPID
  {
    JoinsMoveOwn(env, s, pid, request);
    var moves := Handle(env, s, pid, request).moves;
    hide Handle, Possible;
    assert ApplyAll(env, s, []) == s;
    if moves != [] {
      assert moves[0] in moves && moves == [moves[0]];
      OneMove(env, s, moves[0]);
      hide ApplyAll;
      if moves[0].Admit? { MoveDrifts(env, s, moves[0], pid, gid); }
    }
  }

  lemma MovingIsGuarded(env: Env, s: State, pid: PID, request: Request, gid: nat)
    requires Inv(s) && Possible(env, s, pid, request) && OnlyMoves(request) && !Taken(env, s, pid, request, gid)
    requires gid in s.sessions && gid in Step(env, s, pid, request).sessions
    ensures Guarded(s, pid, request, gid, Step(env, s, pid, request).sessions[gid])
  {
    assert s.sessions[gid].info.id == gid && s.sessions[gid].info.hostPID in s.sessions[gid].participants;
    hide Handle, Possible, Inv;
    HandlersMoveOwn(env, s, pid, request);
    if !Departs(request, gid) {
      StayingKeepsHost(env, s, pid, request, gid);
    } else if !request.LeaveGathering? {
      CreationsDestroyNothing(env, s, pid, request);
    } else {
      JoinsMoveOwn(env, s, pid, request);
    }
    var moves := Handle(env, s, pid, request).moves;
    if moves != [] {
      assert Last(moves) in moves;
      MovesDrift(env, s, moves, pid, gid);
    }
  }

  /** A change of one record, or the end of one gathering, perhaps reported. */
  ghost predicate Revising(moves: seq<Move>) {
    && (|moves| == 1 || (|moves| == 2 && moves[1].Send?))
    && (moves[0].Revise? || moves[0].Destroy?)
  }

  lemma RevisionResult(env: Env, s: State, moves: seq<Move>, gid: nat)
    requires Revising(moves) && gid in s.sessions && gid in ApplyAll(env, s, moves).sessions
    ensures ApplyAll(env, s, moves).sessions[gid] ==
            if moves[0].Revise? && moves[0].gid == gid then s.sessions[gid].(info := moves[0].info, url := moves[0].url)
            else s.sessions[gid]
  {
    assert Init(moves[..1]) == [] && moves[..1] == [moves[0]];
    if |moves| == 2 { assert Init(moves) == moves[..1]; } else { assert Init(moves) == []; }
  }

  lemma HandlersRevise(env: Env, s: State, pid: PID, request: Request)
    requires Possible(env, s, pid, request) && !OnlyMoves(request)
    ensures var moves := Handle(env, s, pid, request).moves; moves == [] || Revising(moves)
  {
    hide ApplyAll, Mutated, Updated;
  }

  lemma SettingsAreOwned(s: State, pid: PID, request: Request)
    requires request.UpdateSession? || request.Mutate?
    ensures var moves := if request.UpdateSession?
                         then UpdateEffect(s, pid, request.session, request.SettingsAllowed()).moves
                         else MutateEffect(s, pid, request.gid, request.mutation).moves;
            moves != [] && moves[0].Revise? && moves[0].gid in s.sessions
            && s.sessions[moves[0].gid].info.id == moves[0].gid ==>
              Guarded(s, pid, request, moves[0].gid,
                      s.sessions[moves[0].gid].(info := moves[0].info, url := moves[0].url))
  {
  }

  lemma RolesAreClaimed(s: State, pid: PID, request: Request)
    requires request.LaunchSession? || request.UpdateSessionURL? || request.UpdateSessionHost?
    ensures var moves := if request.LaunchSession? then HostEffect(s, pid, request.gid, Some(request.url)).moves
                         else if request.UpdateSessionURL?
                         then HostEffect(s, pid, request.gid,
                                         if request.url != "" then Some(request.url) else None).moves
                         else UpdateSessionHostEffect(s, pid, request.gid, request.migrateOwner).moves;
            moves != [] && moves[0].Revise? && moves[0].gid in s.sessions ==>
              Guarded(s, pid, request, moves[0].gid,
                      s.sessions[moves[0].gid].(info := moves[0].info, url := moves[0].url))
  {
  }

  lemma OwnershipIsHanded(s: State, pid: PID, request: Request)
    requires request.MigrateGatheringOwnership?
    ensures var moves := MigrateEffect(s, pid, request.gid, request.candidates).moves;
            moves != [] && moves[0].Revise? && moves[0].gid in s.sessions ==>
              Guarded(s, pid, request, moves[0].gid,
                      s.sessions[moves[0].gid].(info := moves[0].info, url := moves[0].url))
  {
    if request.gid in s.sessions { FirstParticipantFacts(request.candidates, s.sessions[request.gid].participants); }
  }

  lemma RevisingIsGuarded(env: Env, s: State, pid: PID, request: Request, gid: nat)
    requires Inv(s) && Possible(env, s, pid, request) && !OnlyMoves(request)
    requires gid in s.sessions && gid in Step(env, s, pid, request).sessions
    ensures Guarded(s, pid, request, gid, Step(env, s, pid, request).sessions[gid])
  {
    assert Guarded(s, pid, request, gid, s.sessions[gid]);
    assert s.sessions[gid].info.id == gid;
    var moves := Handle(env, s, pid, request).moves;
    assert ApplyAll(env, s, []) == s;
    HandlersRevise(env, s, pid, request);
    hide UpdateEffect, MutateEffect, HostEffect, UpdateSessionHostEffect, MigrateEffect;
    hide Guarded, ApplyAll, Inv, Possible;
    if moves != [] {
      RevisionResult(env, s, moves, gid);
      match request {
        case UpdateSession(_, _, _) => SettingsAreOwned(s, pid, request);
        case Mutate(_, _) => SettingsAreOwned(s, pid, request);
        case MigrateGatheringOwnership(_, _) => OwnershipIsHanded(s, pid, request);
        case UnregisterGathering(_) =>
        case _ => RolesAreClaimed(s, pid, request);
      }
    }
  }

  lemma OpenedIsOwned(session: MatchmakeSession, gid: nat, pid: PID, heads: UInt16, key: nat, now: nat)
    ensures OwnedAlone(Joined(Opened(session, gid, pid, key, now), pid, heads), pid)
  {
    CopiesFacts<PID>(pid, heads);
    hide Copies;
  }

  lemma CreationTakes(env: Env, s: State, move: Move, pid: PID)
    requires Creates([move]) && (move.Open? ==> move.pid == pid)
    ensures var t, gid := Apply(env, s, move), s.nextGatheringID;
            if gid in t.sessions then OwnedAlone(t.sessions[gid], pid) else move.Burn?
  {
    hide Joined, Opened, JoinEvents;
    if move.Open? { OpenedIsOwned(move.request, s.nextGatheringID, pid, move.heads, move.key, move.now); }
  }

  /** Under the ID it takes, a request leaves the caller's gathering, or nothing when the creation is refused. */
  lemma TakenByCaller(env: Env, s: State, pid: PID, request: Request)
    requires Possible(env, s, pid, request) && TakesID(env, s, pid, request)
    ensures var t, gid := Step(env, s, pid, request), s.nextGatheringID;
            if gid in t.sessions then OwnedAlone(t.sessions[gid], pid)
            else LeavesAll(request) && Handle(env, s, pid, request).reply.Failed?
  {
    hide Possible, Apply, Handle, Departures, OwnedAlone;
    CreationsLeaveAll(env, s, pid, request);
    ChangesFollowDepartures(env, s, pid, request);
    DeparturesAreLeaves(request.order, pid, Disconnect);
    var moves := Handle(env, s, pid, request).moves;
    LeavesAreLegal(env, s, Init(moves));
    CreationTakes(env, ApplyAll(env, s, Init(moves)), Last(moves), pid);
  }

  /** Somebody else's gathering does not live on in it: its owner was put out. */
  lemma ReplacedIsUnguarded(env: Env, s: State, pid: PID, request: Request)
    requires Inv(s) && Possible(env, s, pid, request) && TakesID(env, s, pid, request)
    requires var t, gid := Step(env, s, pid, request), s.nextGatheringID;
             gid in s.sessions && gid in t.sessions && s.sessions[gid].info.ownerPID != pid
    ensures var t, gid := Step(env, s, pid, request), s.nextGatheringID;
            !Guarded(s, pid, request, gid, t.sessions[gid])
  {
    TakenByCaller(env, s, pid, request);
    hide Step, Possible, TakesID, Handle, Without;
    var gid := s.nextGatheringID;
    var owner := s.sessions[gid].info.ownerPID;
    assert owner in s.sessions[gid].participants;
    WithoutFacts(s.sessions[gid].participants, pid);
    WithoutFacts(Step(env, s, pid, request).sessions[gid].participants, pid);
    assert owner in Without(s.sessions[gid].participants, pid);
  }

  /** Over any request, only those who may change a gathering's owner, host, key, start time or settings do, unless
      the request takes its ID, which it can once the counter has wrapped: then the caller's new gathering stands in
      its place, and nothing is left of somebody else's. */
  lemma RequestsAreGuarded(env: Env, s: State, pid: PID, request: Request, gid: nat)
    requires Inv(s) && Possible(env, s, pid, request)
    requires gid in s.sessions && gid in Step(env, s, pid, request).sessions
    ensures !Taken(env, s, pid, request, gid) ==>
              Guarded(s, pid, request, gid, Step(env, s, pid, request).sessions[gid])
    ensures Taken(env, s, pid, request, gid) ==> OwnedAlone(Step(env, s, pid, request).sessions[gid], pid)
    ensures Taken(env, s, pid, request, gid) && s.sessions[gid].info.ownerPID != pid ==>
              !Guarded(s, pid, request, gid, Step(env, s, pid, request).sessions[gid])
  {
    hide Handle, Step, Possible, Guarded, OwnedAlone, TakesID;
    if Taken(env, s, pid, request, gid) {
      TakenByCaller(env, s, pid, request);
      if s.sessions[gid].info.ownerPID != pid { ReplacedIsUnguarded(env, s, pid, request); }
    } else if OnlyMoves(request) {
      MovingIsGuarded(env, s, pid, request, gid);
    } else {
      RevisingIsGuarded(env, s, pid, request, gid);
    }
  }

  // ---- Who may end a gathering ------------------------------------------------------------------

  /** A move ends a gathering when it is its owner's departure, or its removal. */
  lemma MoveEnds(env: Env, s: State, move: Move, pid: PID, gid: nat)
    requires Inv(s) && gid in s.sessions && gid !in Apply(env, s, move).sessions
    requires gid == s.nextGatheringID ==> !Creates([move])
    requires move.Leave? ==> move.pid == pid
    ensures (move.Leave? && move.gid == gid && s.sessions[gid].info.ownerPID == pid)
            || (move.Destroy? && move.gid == gid)
  {
    hide LeaveEvents, JoinEvents;
    OwnerDecides(gid, s.sessions[gid], pid);
  }

  ghost predicate Leaving(moves: seq<Move>, gid: nat) {
    exists move :: move in moves && move.Leave? && move.gid == gid
  }

  lemma LeavingGrows(moves: seq<Move>, gid: nat)
    requires moves != []
    ensures Leaving(Init(moves), gid) || (Last(moves).Leave? && Last(moves).gid == gid) ==> Leaving(moves, gid)
  {
    assert moves == Init(moves) + [Last(moves)] && Last(moves) in moves;
  }

  lemma {:induction false} LeavesEnd(env: Env, s: State, moves: seq<Move>, pid: PID, gid: nat)
    requires Inv(s) && OnlyLeaves(moves) && Moving(moves, pid)
    requires gid in s.sessions && gid !in ApplyAll(env, s, moves).sessions
    ensures s.sessions[gid].info.ownerPID == pid && Leaving(moves, gid)
  {
    if moves == [] {
    } else {
      EarlierLeaves(moves, pid);
      hide Apply, Inv, AllLegal, Leaving, OnlyLeaves, Moving;
      LeavesAreLegal(env, s, Init(moves));
      MovesKeepInv(env, s, Init(moves));
      LeavingGrows(moves, gid);
      var mid := ApplyAll(env, s, Init(moves));
      if gid in mid.sessions {
        OwnerStays(env, s, Init(moves), pid, gid);
        MoveEnds(env, mid, Last(moves), pid, gid);
      } else {
        LeavesEnd(env, s, Init(moves), pid, gid);
      }
    }
  }

  lemma EarlierLeaves(moves: seq<Move>, pid: PID)
    requires moves != [] && OnlyLeaves(moves) && Moving(moves, pid)
    ensures OnlyLeaves(Init(moves)) && Moving(Init(moves), pid) && Last(moves).Leave? && Last(moves).pid == pid
  {
  }

  lemma OwnerStays(env: Env, s: State, moves: seq<Move>, pid: PID, gid: nat)
    requires OnlyLeaves(moves) && Moving(moves, pid) && gid in s.sessions && gid in ApplyAll(env, s, moves).sessions
    ensures ApplyAll(env, s, moves).sessions[gid].info.ownerPID == s.sessions[gid].info.ownerPID
  {
    LeavesDrift(env, s, moves, pid, gid);
    hide ApplyAll, OnlyLeaves, Moving, Settings, Without;
  }

  lemma MovesEnd(env: Env, s: State, moves: seq<Move>, pid: PID, gid: nat)
    requires Inv(s) && moves != [] && OnlyLeaves(Init(moves)) && Moving(moves, pid)
    requires forall move :: move in moves ==> !move.Destroy?
    requires gid in s.sessions && gid !in ApplyAll(env, s, moves).sessions
    requires gid == s.nextGatheringID ==> !Creates(moves)
    ensures s.sessions[gid].info.ownerPID == pid && Leaving(moves, gid)
  {
    hide Apply, Inv, Settings, Without, AllLegal, Leaving, Drifted;
    LeavesAreLegal(env, s, Init(moves));
    MovesKeepInv(env, s, Init(moves));
    LeavingGrows(moves, gid);
    assert moves == Init(moves) + [Last(moves)] && Last(moves) in moves;
    var mid := ApplyAll(env, s, Init(moves));
    if gid in mid.sessions {
      OwnerStays(env, s, Init(moves), pid, gid);
      MoveEnds(env, mid, Last(moves), pid, gid);
    } else {
      LeavesEnd(env, s, Init(moves), pid, gid);
    }
  }

  lemma MovingEndsOwn(env: Env, s: State, pid: PID, request: Request, gid: nat)
    requires Inv(s) && Possible(env, s, pid, request) && OnlyMoves(request) && !Taken(env, s, pid, request, gid)
    requires gid in s.sessions && gid !in Step(env, s, pid, request).sessions
    ensures s.sessions[gid].info.ownerPID == pid && Departs(request, gid)
  {
    hide Handle, Possible, Inv;
    HandlersMoveOwn(env, s, pid, request);
    if request.JoinMatchmakeSession? || request.ParticipateIn? || request.LeaveGathering? {
      JoinsMoveOwn(env, s, pid, request);
    } else {
      CreationsDestroyNothing(env, s, pid, request);
    }
    var moves := Handle(env, s, pid, request).moves;
    assert ApplyAll(env, s, []) == s;
    assert forall move :: move in moves ==> !move.Destroy?;
    MovesEnd(env, s, moves, pid, gid);
  }

  lemma RevisingEndsOwn(env: Env, s: State, pid: PID, request: Request, gid: nat)
    requires Inv(s) && Possible(env, s, pid, request) && !OnlyMoves(request)
    requires gid in s.sessions && gid !in Step(env, s, pid, request).sessions
    ensures s.sessions[gid].info.ownerPID == pid && request == UnregisterGathering(gid)
  {
    hide Handle, ApplyAll, Inv, Possible;
    HandlersRevise(env, s, pid, request);
    RevisionKeys(env, s, Handle(env, s, pid, request).moves);
    OnlyOwnersDestroy(env, s, pid, request);
  }

  lemma OnlyOwnersDestroy(env: Env, s: State, pid: PID, request: Request)
    requires Possible(env, s, pid, request) && !OnlyMoves(request)
    ensures var moves := Handle(env, s, pid, request).moves;
            moves != [] && moves[0].Destroy? ==>
              && request == UnregisterGathering(moves[0].gid)
              && moves[0].gid in s.sessions && s.sessions[moves[0].gid].info.ownerPID == pid
  {
    hide ApplyAll, Mutated, Updated;
  }

  lemma RevisionKeys(env: Env, s: State, moves: seq<Move>)
    requires moves == [] || Revising(moves)
    ensures ApplyAll(env, s, moves).sessions.Keys
            == if moves != [] && moves[0].Destroy? then s.sessions.Keys - {moves[0].gid} else s.sessions.Keys
  {
    if moves != [] {
      assert Init(moves[..1]) == [] && moves[..1] == [moves[0]];
      if |moves| == 2 { assert Init(moves) == moves[..1]; } else { assert Init(moves) == []; }
    }
  }

  /** Only its owner ends a gathering, by leaving it or by unregistering it, unless a creation takes its ID and is
      then refused. */
  lemma EndingsAreGuarded(env: Env, s: State, pid: PID, request: Request, gid: nat)
    requires Inv(s) && Possible(env, s, pid, request)
    requires gid in s.sessions && gid !in Step(env, s, pid, request).sessions
    ensures !Taken(env, s, pid, request, gid) ==>
              s.sessions[gid].info.ownerPID == pid && (Departs(request, gid) || request == UnregisterGathering(gid))
    ensures Taken(env, s, pid, request, gid) ==> LeavesAll(request) && Handle(env, s, pid, request).reply.Failed?
  {
    hide Handle, Step, Possible, Inv, TakesID;
    if Taken(env, s, pid, request, gid) {
      TakenByCaller(env, s, pid, request);
    } else if OnlyMoves(request) {
      MovingEndsOwn(env, s, pid, request, gid);
    } else {
      RevisingEndsOwn(env, s, pid, request, gid);
    }
  }
}
