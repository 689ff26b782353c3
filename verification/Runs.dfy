/** Gathering IDs over runs, and what leaving every gathering at once amounts to. */
module Runs {
  import opened Common
  import opened Gatherings
  import opened Search
  import opened Handlers
  import opened Invariants

  // ---- Disconnecting ----------------------------------------------------------------------------

  /** Gatherings the player owned are gone, every other one has forgotten the player. */
  function Scrubbed(sessions: map<nat, Gathering>, pid: PID): map<nat, Gathering> {
    map gid | gid in sessions && sessions[gid].info.ownerPID != pid :: Left(sessions[gid], pid)
  }

  /** One leave event for each gathering that held the player, in listing order. */
  function DepartureEvents(env: Env, sessions: map<nat, Gathering>, order: seq<nat>, pid: PID,
                           kind: LeaveKind): seq<Event> {
    if order == [] then []
    else
      var gid := Last(order);
      DepartureEvents(env, sessions, Init(order), pid, kind)
      + if gid in sessions && pid in sessions[gid].participants
        then LeaveEvents(env, sessions[gid], pid, kind, "")
        else []
  }

  lemma LeftByStranger(gid: nat, g: Gathering, pid: PID)
    requires Consistent(gid, g) && pid !in g.participants
    ensures Left(g, pid) == g && g.info.ownerPID != pid
  {
    WithoutFacts(g.participants, pid);
  }

  lemma OwnerDecides(gid: nat, g: Gathering, pid: PID)
    requires Consistent(gid, g)
    ensures EndsWith(g, pid) <==> g.info.ownerPID == pid
  {
    WithoutFacts(g.participants, pid);
  }

  lemma LeaveScrubs(env: Env, s: State, gid: nat, pid: PID, kind: LeaveKind)
    requires gid in s.sessions && Consistent(gid, s.sessions[gid])
    ensures var g := s.sessions[gid];
            Apply(env, s, Leave(gid, pid, kind, ""))
            == s.(sessions := if g.info.ownerPID == pid then s.sessions - {gid} else s.sessions[gid := Left(g, pid)],
                  log := s.log + if pid in g.participants then LeaveEvents(env, g, pid, kind, "") else [])
  {
    hide LeaveEvents;
    OwnerDecides(gid, s.sessions[gid], pid);
    if pid !in s.sessions[gid].participants {
      LeftByStranger(gid, s.sessions[gid], pid);
      assert s.sessions[gid := s.sessions[gid]] == s.sessions;
    }
  }

  /** The gatherings already seen are scrubbed and the others untouched. */
  ghost predicate PartlyScrubbed(sessions: map<nat, Gathering>, seen: set<nat>, pid: PID, now: map<nat, Gathering>) {
    && (forall gid :: gid in now <==> gid in sessions && (gid in seen ==> sessions[gid].info.ownerPID != pid))
    && (forall gid :: gid in now ==> now[gid] == if gid in seen then Left(sessions[gid], pid) else sessions[gid])
  }

  lemma ScrubOne(sessions: map<nat, Gathering>, seen: set<nat>, pid: PID, now: map<nat, Gathering>, gid: nat)
    requires PartlyScrubbed(sessions, seen, pid, now) && gid in sessions && gid !in seen
    ensures gid in now && now[gid] == sessions[gid]
    ensures var next := if sessions[gid].info.ownerPID == pid then now - {gid}
                        else now[gid := Left(sessions[gid], pid)];
            PartlyScrubbed(sessions, seen + {gid}, pid, next)
  {
    hide Left;
  }

  lemma LastIsNew(order: seq<nat>)
    requires NoDuplicates(order) && order != []
    ensures NoDuplicates(Init(order)) && Last(order) in order && Last(order) !in SetOf(Init(order))
    ensures SetOf(order) == SetOf(Init(order)) + {Last(order)}
    ensures forall gid :: gid in Init(order) ==> gid in order
  {
    assert order == Init(order) + [Last(order)];
  }

  lemma {:induction false} DeparturesScrub(env: Env, s: State, order: seq<nat>, pid: PID, kind: LeaveKind)
    requires Inv(s) && NoDuplicates(order) && forall gid :: gid in order ==> gid in s.sessions
    ensures var t := ApplyAll(env, s, Departures(order, pid, kind));
            t.nextGatheringID == s.nextGatheringID && PartlyScrubbed(s.sessions, SetOf(order), pid, t.sessions)
  {
    if order == [] {
    } else {
      hide LeaveEvents, Left, Apply, Consistent, PartlyScrubbed, NoDuplicates;
      var gid := Last(order);
      LastIsNew(order);
      DeparturesScrub(env, s, Init(order), pid, kind);
      var t := ApplyAll(env, s, Departures(Init(order), pid, kind));
      ScrubOne(s.sessions, SetOf(Init(order)), pid, t.sessions, gid);
      ApplyAllSnoc(env, s, Departures(Init(order), pid, kind), Leave(gid, pid, kind, ""));
      LeaveScrubs(env, t, gid, pid, kind);
    }
  }

  /** The last listed gathering is as it was until its turn comes. */
  lemma LastIsUntouched(env: Env, s: State, order: seq<nat>, pid: PID, kind: LeaveKind)
    requires Inv(s) && NoDuplicates(order) && order != [] && forall gid :: gid in order ==> gid in s.sessions
    ensures var t := ApplyAll(env, s, Departures(Init(order), pid, kind));
            Last(order) in t.sessions && t.sessions[Last(order)] == s.sessions[Last(order)]
  {
    hide Left, Apply, ApplyAll, Departures, Consistent, PartlyScrubbed, NoDuplicates;
    LastIsNew(order);
    DeparturesScrub(env, s, Init(order), pid, kind);
    var t := ApplyAll(env, s, Departures(Init(order), pid, kind));
    ScrubOne(s.sessions, SetOf(Init(order)), pid, t.sessions, Last(order));
  }

  lemma {:induction false} DeparturesLog(env: Env, s: State, order: seq<nat>, pid: PID, kind: LeaveKind)
    requires Inv(s) && NoDuplicates(order) && forall gid :: gid in order ==> gid in s.sessions
    ensures ApplyAll(env, s, Departures(order, pid, kind)).log
            == s.log + DepartureEvents(env, s.sessions, order, pid, kind)
  {
    if order == [] {
    } else {
      hide LeaveEvents, Left, Apply, Consistent, NoDuplicates, EndsWith;
      var gid := Last(order);
      LastIsNew(order);
      DeparturesLog(env, s, Init(order), pid, kind);
      LastIsUntouched(env, s, order, pid, kind);
      var t := ApplyAll(env, s, Departures(Init(order), pid, kind));
      ApplyAllSnoc(env, s, Departures(Init(order), pid, kind), Leave(gid, pid, kind, ""));
      LeaveScrubs(env, t, gid, pid, kind);
    }
  }

  /** Whatever order the map yields, disconnecting has one result, told to those who stay. */
  lemma DisconnectClosedForm(env: Env, s: State, order: seq<nat>, pid: PID, kind: LeaveKind)
    requires Inv(s) && Enumerates(order, s.sessions.Keys)
    ensures ApplyAll(env, s, Departures(order, pid, kind))
            == s.(sessions := Scrubbed(s.sessions, pid),
                  log := s.log + DepartureEvents(env, s.sessions, order, pid, kind))
  {
    forall gid ensures gid in order <==> gid in s.sessions {
      assert gid in SetOf(order) <==> gid in s.sessions.Keys;
    }
    hide Left, DepartureEvents, Departures, Consistent;
    DeparturesScrub(env, s, order, pid, kind);
    DeparturesLog(env, s, order, pid, kind);
    var t := ApplyAll(env, s, Departures(order, pid, kind));
    assert t.sessions == Scrubbed(s.sessions, pid);
  }

  /** After it, the player is nobody's participant, owner or host, and strangers' gatherings are as before. */
  lemma DisconnectForgets(s: State, pid: PID)
    requires Inv(s)
    ensures forall gid :: gid in Scrubbed(s.sessions, pid) ==>
              var g := Scrubbed(s.sessions, pid)[gid];
              pid !in g.participants && g.info.ownerPID != pid && g.info.hostPID != pid
    ensures forall gid :: gid in s.sessions && pid !in s.sessions[gid].participants ==>
              gid in Scrubbed(s.sessions, pid) && Scrubbed(s.sessions, pid)[gid] == s.sessions[gid]
    ensures forall gid :: gid in s.sessions && gid !in Scrubbed(s.sessions, pid) ==>
              s.sessions[gid].info.ownerPID == pid
  {
    forall gid | gid in s.sessions
      ensures gid in Scrubbed(s.sessions, pid) ==> pid !in Scrubbed(s.sessions, pid)[gid].participants
      ensures pid !in s.sessions[gid].participants ==>
                gid in Scrubbed(s.sessions, pid) && Scrubbed(s.sessions, pid)[gid] == s.sessions[gid]
    {
      WithoutFacts(s.sessions[gid].participants, pid);
      if pid !in s.sessions[gid].participants { LeftByStranger(gid, s.sessions[gid], pid); }
    }
  }

  // ---- Gathering IDs ----------------------------------------------------------------------------

  /** A handler leaves gatherings, then does at most one more thing, and may report it. */
  ghost predicate Shaped(moves: seq<Move>) {
    || moves == []
    || (OnlyLeaves(Init(moves)) && !Last(moves).Send?)
    || (|moves| == 2 && (moves[0].Revise? || moves[0].Destroy?) && moves[1].Send?)
  }

  lemma CreateIsShaped(env: Env, t: State, departures: seq<Move>, pid: PID, session: MatchmakeSession, count: UInt16,
                       message: string, key: nat, now: nat)
    requires OnlyLeaves(departures)
    ensures Shaped(CreateEffect(env, t, departures, pid, session, count, message, key, now).moves)
  {
    var moves := CreateEffect(env, t, departures, pid, session, count, message, key, now).moves;
    assert Init(moves) == departures;
  }

  lemma AutoMatchmakeIsShaped(env: Env, s: State, pid: PID, criterias: seq<Criteria>, session: MatchmakeSession,
                              valid: bool,
                              message: string, key: nat, now: nat, order: seq<nat>, listings: seq<seq<nat>>)
    requires |listings| == if criterias == [] then 1 else |criterias|
    ensures Shaped(AutoMatchmakeEffect(env, s, pid, criterias, session, valid, message, key, now, order,
                                       listings).moves)
  {
    hide ApplyAll, Choose, CreateEffect;
    var departures := Departures(order, pid, Disconnect);
    var t := ApplyAll(env, s, departures);
    DeparturesAreLeaves(order, pid, Disconnect);
    CreateIsShaped(env, t, departures, pid, session, 1, message, key, now);
    var moves := AutoMatchmakeEffect(env, s, pid, criterias, session, valid, message, key, now, order, listings).moves;
    var choice := Choose(env, t, pid, criterias, session, listings);
    if choice.Some? {
      assert moves == [] || moves == departures || Init(moves) == departures;
    }
  }

  lemma HandlersAreShaped(env: Env, s: State, pid: PID, request: Request)
    requires Possible(env, s, pid, request)
    ensures Shaped(Handle(env, s, pid, request).moves)
  {
    hide ApplyAll, CreateEffect, AutoMatchmakeEffect;
    match request
    case CreateMatchmakeSession(session, fits, count, message, key, now, order) =>
      var departures := Departures(order, pid, Disconnect);
      DeparturesAreLeaves(order, pid, Disconnect);
      CreateIsShaped(env, ApplyAll(env, s, departures), departures, pid, session, count, message, key, now);
    case RegisterGathering(session, fits, key, now, order) =>
      var departures := Departures(order, pid, Disconnect);
      DeparturesAreLeaves(order, pid, Disconnect);
      CreateIsShaped(env, ApplyAll(env, s, departures), departures, pid, session, 1, "", key, now);
    case AutoMatchmake(criterias, session, fits, message, key, now, order, listings) =>
      AutoMatchmakeIsShaped(env, s, pid, criterias, session, ValidSession(session, fits), message, key, now, order,
                            listings);
    case ConnectionEnded(order) => DeparturesAreLeaves(order, pid, Disconnect);
    case _ =>
  }

  predicate Creates(moves: seq<Move>) {
    moves != [] && (Last(moves).Open? || Last(moves).Burn?)
  }

  /** Nothing, only departures, or the departures and then one change that is the caller's. */
  ghost predicate ChangesAfter(effect: Effect, departures: seq<Move>, pid: PID) {
    effect.moves != [] && !Last(effect.moves).Leave? ==>
      && Init(effect.moves) == departures
      && match Last(effect.moves) {
           case Open(_, caller, _, _, _, _) => caller == pid
           case Admit(_, caller, _, _) => caller == pid
           case Burn => effect.reply.Failed?
           case _ => false
         }
  }

  lemma CreatesAfter(env: Env, t: State, departures: seq<Move>, pid: PID, session: MatchmakeSession, count: UInt16,
                     message: string, key: nat, now: nat)
    ensures ChangesAfter(CreateEffect(env, t, departures, pid, session, count, message, key, now), departures, pid)
  {
    hide JoinError, Opened, Joined;
  }

  lemma AutoMatchmakesAfter(env: Env, s: State, pid: PID, criterias: seq<Criteria>, session: MatchmakeSession,
                            valid: bool, message: string, key: nat, now: nat, order: seq<nat>,
                            listings: seq<seq<nat>>)
    requires |listings| == if criterias == [] then 1 else |criterias|
    ensures ChangesAfter(AutoMatchmakeEffect(env, s, pid, criterias, session, valid, message, key, now, order,
                                             listings),
                         Departures(order, pid, Disconnect), pid)
  {
    hide ApplyAll, Choose, CreateEffect, JoinError, Joined;
    var departures := Departures(order, pid, Disconnect);
    DeparturesAreLeaves(order, pid, Disconnect);
    CreatesAfter(env, ApplyAll(env, s, departures), departures, pid, session, 1, message, key, now);
  }

  /** A request that leaves every gathering makes its one change, for its caller, only after that. */
  lemma ChangesFollowDepartures(env: Env, s: State, pid: PID, request: Request)
    requires Possible(env, s, pid, request) && LeavesAll(request)
    ensures ChangesAfter(Handle(env, s, pid, request), Departures(request.order, pid, Disconnect), pid)
  {
    hide ApplyAll, CreateEffect, AutoMatchmakeEffect;
    match request
    case CreateMatchmakeSession(session, fits, count, message, key, now, order) =>
      var departures := Departures(order, pid, Disconnect);
      CreatesAfter(env, ApplyAll(env, s, departures), departures, pid, session, count, message, key, now);
    case RegisterGathering(session, fits, key, now, order) =>
      var departures := Departures(order, pid, Disconnect);
      CreatesAfter(env, ApplyAll(env, s, departures), departures, pid, session, 1, "", key, now);
    case AutoMatchmake(criterias, session, fits, message, key, now, order, listings) =>
      AutoMatchmakesAfter(env, s, pid, criterias, session, ValidSession(session, fits), message, key, now, order,
                          listings);
    case ConnectionEnded(order) => DeparturesAreLeaves(order, pid, Disconnect);
  }

  /** No other request takes an ID. */
  lemma CreationsLeaveAll(env: Env, s: State, pid: PID, request: Request)
    requires Possible(env, s, pid, request) && Creates(Handle(env, s, pid, request).moves)
    ensures LeavesAll(request)
  {
    hide Possible, Dedup, Mutated, Updated, JoinError, CanJoin;
  }

  lemma OneMove(env: Env, s: State, move: Move)
    ensures ApplyAll(env, s, [move]) == Apply(env, s, move)
  {
    assert Init([move]) == [];
  }

  /** A run goes on with any call that its last state allows. */
  lemma OneMoreCall(env: Env, calls: seq<Call>, call: Call)
    requires Reachable(env, calls) && Possible(env, Final(env, calls), call.pid, call.request)
    ensures Reachable(env, calls + [call])
    ensures Final(env, calls + [call]) == Step(env, Final(env, calls), call.pid, call.request)
  {
    hide Step, Possible;
    assert Init(calls + [call]) == calls;
  }

  lemma MoveNextID(env: Env, s: State, move: Move)
    ensures Apply(env, s, move).nextGatheringID
            == if Creates([move]) then U32(s.nextGatheringID + 1) else s.nextGatheringID
    ensures Apply(env, s, move).sessions.Keys <= s.sessions.Keys + if Creates([move]) then {s.nextGatheringID} else {}
  {
    hide JoinEvents, LeaveEvents, Joined, Left, Opened;
  }

  lemma ShapedNextID(env: Env, s: State, moves: seq<Move>)
    requires Shaped(moves)
    ensures ApplyAll(env, s, moves).nextGatheringID ==
            if Creates(moves) then U32(s.nextGatheringID + 1) else s.nextGatheringID
    ensures ApplyAll(env, s, moves).sessions.Keys <=
            s.sessions.Keys + if Creates(moves) then {s.nextGatheringID} else {}
  {
    hide Apply, U32;
    if moves != [] {
      if OnlyLeaves(Init(moves)) {
        LeavesAreLegal(env, s, Init(moves));
        LeavesKeepKeys(env, s, Init(moves));
      } else {
        assert Init(moves) == [moves[0]] && Init([moves[0]]) == [];
        MoveNextID(env, s, moves[0]);
      }
      MoveNextID(env, ApplyAll(env, s, Init(moves)), Last(moves));
    }
  }

  lemma {:induction false} LeavesKeepKeys(env: Env, s: State, moves: seq<Move>)
    requires OnlyLeaves(moves)
    ensures ApplyAll(env, s, moves).sessions.Keys <= s.sessions.Keys
  {
    if moves == [] {
    } else {
      LeavesKeepKeys(env, s, Init(moves));
    }
  }

  ghost predicate TakesID(env: Env, s: State, pid: PID, request: Request)
    requires Possible(env, s, pid, request)
  {
    Creates(Handle(env, s, pid, request).moves)
  }

  lemma StepIDs(env: Env, s: State, pid: PID, request: Request)
    requires Possible(env, s, pid, request)
    ensures Step(env, s, pid, request).nextGatheringID ==
            if TakesID(env, s, pid, request) then U32(s.nextGatheringID + 1) else s.nextGatheringID
    ensures Step(env, s, pid, request).sessions.Keys <=
            s.sessions.Keys + if TakesID(env, s, pid, request) then {s.nextGatheringID} else {}
  {
    HandlersAreShaped(env, s, pid, request);
    ShapedNextID(env, s, Handle(env, s, pid, request).moves);
  }

  lemma Remainder(n: nat, quotient: nat, remainder: nat)
    requires n == quotient * 0x1_0000_0000 + remainder && remainder < TWO32
    ensures U32(n) == remainder
  {
  }

  lemma CounterFacts(n: nat)
    ensures U32(U32(n + 1) + 1) == U32(n + 2)
    ensures n + 1 < TWO32 ==> U32(n + 1) == n + 1
    ensures U32(n + 1) == 0 <==> U32(n) == TWO32 - 1
  {
    var quotient, remainder := n / 0x1_0000_0000, n % 0x1_0000_0000;
    if remainder + 2 < TWO32 {
      Remainder(n + 1, quotient, remainder + 1);
      Remainder(n + 2, quotient, remainder + 2);
    } else if remainder + 1 < TWO32 {
      Remainder(n + 1, quotient, remainder + 1);
      Remainder(n + 2, quotient + 1, 0);
    } else {
      Remainder(n + 1, quotient + 1, 0);
      Remainder(n + 2, quotient + 1, 1);
    }
  }

  /** The live IDs and the counter after n creations. */
  ghost predicate Numbered(ids: set<nat>, next: nat, n: nat) {
    && next == U32(n + 1)
    && (n < TWO32 ==> forall gid :: gid in ids ==> 1 <= gid <= n)
  }

  lemma NumberedStep(ids: set<nat>, next: nat, n: nat, ids': set<nat>, taken: bool)
    requires Numbered(ids, next, n) && ids' <= ids + if taken then {next} else {}
    ensures Numbered(ids', if taken then U32(next + 1) else next, if taken then n + 1 else n)
  {
    CounterFacts(n);
  }

  /** How many calls of the run took a gathering ID. */
  ghost function Creations(env: Env, calls: seq<Call>): nat
    requires Reachable(env, calls)
  {
    if calls == [] then 0
    else Creations(env, Init(calls))
         + if TakesID(env, Final(env, Init(calls)), Last(calls).pid, Last(calls).request) then 1 else 0
  }

  /** IDs count creations, modulo 2^32: before the counter wraps every live ID is one that was handed out, and not 0. */
  lemma {:induction false} RunIDs(env: Env, calls: seq<Call>)
    requires Reachable(env, calls)
    ensures Numbered(Final(env, calls).sessions.Keys, Final(env, calls).nextGatheringID, Creations(env, calls))
  {
    hide Handle, TakesID, Possible;
    if calls == [] {
    } else {
      var s := Final(env, Init(calls));
      var pid, request := Last(calls).pid, Last(calls).request;
      RunIDs(env, Init(calls));
      StepIDs(env, s, pid, request);
      NumberedStep(s.sessions.Keys, s.nextGatheringID, Creations(env, Init(calls)),
                   Step(env, s, pid, request).sessions.Keys, TakesID(env, s, pid, request));
    }
  }

  /** The promise that IDs are not 0 is broken by exactly one creation in 2^32. */
  lemma NextIDIsZero(env: Env, calls: seq<Call>)
    requires Reachable(env, calls)
    ensures Final(env, calls).nextGatheringID == 0 <==> U32(Creations(env, calls)) == TWO32 - 1
  {
    hide Handle, Step, TakesID, Possible;
    RunIDs(env, calls);
    CounterFacts(Creations(env, calls));
  }

  const NEW_GATHERING: MatchmakeSession :=
    MatchmakeSession(0, 0, 0, 1, 0, 0, Flags(false, false, false), 0, 0, [0, 0, 0, 0, 0, 0], true, 0, [],
                     0, 0, 0, 0, "", false, false)

  lemma RegistrationMoves(env: Env, s: State, pid: PID, order: seq<nat>)
    requires Enumerates(order, s.sessions.Keys)
    ensures var request := RegisterGathering(NEW_GATHERING, true, 0, 0, order);
            && Possible(env, s, pid, request)
            && Handle(env, s, pid, request).moves
               == Departures(order, pid, Disconnect) + [Open(NEW_GATHERING, pid, 1, "", 0, 0)]
  {
    hide Enumerates, Departures, ApplyAll, Joined;
  }

  /** A registration after a run: it takes the next ID, which is live afterwards. */
  lemma Registration(env: Env, s: State, pid: PID) returns (request: Request)
    ensures Possible(env, s, pid, request) && TakesID(env, s, pid, request)
    ensures s.nextGatheringID in Step(env, s, pid, request).sessions
  {
    var order := EnumerationExists(s.sessions.Keys);
    request := RegisterGathering(NEW_GATHERING, true, 0, 0, order);
    var departures := Departures(order, pid, Disconnect);
    RegistrationMoves(env, s, pid, order);
    DeparturesAreLeaves(order, pid, Disconnect);
    LeavesAreLegal(env, s, departures);
    hide Enumerates, Departures, ApplyAll, Handle;
    ApplyAllSnoc(env, s, departures, Open(NEW_GATHERING, pid, 1, "", 0, 0));
  }

  /** There are runs with any number of creations. */
  lemma {:induction false} CreationsHappen(env: Env, n: nat) returns (calls: seq<Call>)
    ensures Reachable(env, calls) && Creations(env, calls) == n
  {
    if n == 0 {
      calls := [];
    } else {
      var before := CreationsHappen(env, n - 1);
      hide Step, Possible, TakesID;
      var request := Registration(env, Final(env, before), 1);
      OneMoreCall(env, before, Call(1, request));
      calls := before + [Call(1, request)];
      assert Init(calls) == before;
    }
  }

  /** So a gathering does get the ID 0, after 2^32 - 1 others. */
  lemma ZeroIsHandedOut(env: Env)
    ensures exists calls: seq<Call> :: Reachable(env, calls) && 0 in Final(env, calls).sessions
  {
    var n: nat := TWO32 - 1;
    var before := CreationsHappen(env, n);
    Remainder(n, 0, n);
    NextIDIsZero(env, before);
    hide Step, Possible, TakesID, Reachable, Final;
    var request := Registration(env, Final(env, before), 1);
    OneMoreCall(env, before, Call(1, request));
  }

  /** Fewer than 2^32 creations leave fewer than 2^32 live gatherings. */
  lemma FewGatherings(env: Env, calls: seq<Call>)
    requires Reachable(env, calls) && Creations(env, calls) < TWO32
    ensures |Final(env, calls).sessions| < TWO32
  {
    RunIDs(env, calls);
    hide Reachable, Final, Creations;
    var n := Creations(env, calls);
    var ids := Final(env, calls).sessions.Keys;
    BoundedSet(ids, n);
    assert |ids| == |Final(env, calls).sessions|;
  }

  lemma {:induction false} BoundedSet(ids: set<nat>, n: nat)
    requires forall gid :: gid in ids ==> 1 <= gid <= n
    ensures |ids| <= n
  {
    if n > 0 { BoundedSet(ids - {n}, n - 1); } else { assert ids == {}; }
  }

  lemma {:induction false} ReachablePrefix(env: Env, calls: seq<Call>, i: nat)
    requires Reachable(env, calls) && i <= |calls|
    ensures Reachable(env, calls[..i])
    ensures Creations(env, calls[..i]) <= Creations(env, calls)
  {
    if i == |calls| {
      assert calls[..i] == calls;
    } else {
      ReachablePrefix(env, Init(calls), i);
      assert Init(calls)[..i] == calls[..i];
    }
  }

  /** Before the counter wraps, the ID of a gathering that ended is never live again. */
  lemma {:induction false} IDsAreNotReused(env: Env, calls: seq<Call>, i: nat, j: nat, gid: nat)
    requires Reachable(env, calls) && Creations(env, calls) < TWO32 && i <= j <= |calls|
    requires Reachable(env, calls[..i]) && gid in Final(env, calls[..i]).sessions
    requires Reachable(env, calls[..j]) && gid !in Final(env, calls[..j]).sessions
    ensures gid !in Final(env, calls).sessions
  {
    hide Handle, Step, TakesID, Possible;
    if j == |calls| {
      assert calls[..j] == calls;
    } else {
      var before := Init(calls);
      assert before[..i] == calls[..i] && before[..j] == calls[..j];
      ReachablePrefix(env, calls, |before|);
      assert calls[..|before|] == before;
      IDsAreNotReused(env, before, i, j, gid);
      ReachablePrefix(env, before, i);
      RunIDs(env, calls[..i]);
      RunIDs(env, before);
      assert 1 <= gid <= Creations(env, before);
      StepIDs(env, Final(env, before), Last(calls).pid, Last(calls).request);
      CounterFacts(Creations(env, before));
    }
  }
}
