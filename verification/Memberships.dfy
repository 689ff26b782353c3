/** How many gatherings a player is in at a time, over runs. */
module Memberships {
  import opened Common
  import opened Gatherings
  import opened Handlers
  import opened Invariants
  import opened Runs
  import opened Authority

  ghost predicate Within(s: State, pid: PID, gid: nat) {
    gid in s.sessions && pid in s.sessions[gid].participants
  }

  ghost predicate InAtMostOne(s: State, pid: PID) {
    forall a, b :: Within(s, pid, a) && Within(s, pid, b) ==> a == b
  }

  /** The moves that let a player in. */
  predicate LetsIn(move: Move, pid: PID) {
    (move.Admit? || move.Open?) && move.pid == pid
  }

  lemma JoiningLetsIn(g: Gathering, joiner: PID, heads: UInt16, pid: PID)
    ensures pid in Joined(g, joiner, heads).participants ==> pid in g.participants || pid == joiner
  {
    CopiesFacts<PID>(joiner, heads);
    hide Copies;
  }

  lemma OpeningLetsIn(session: MatchmakeSession, gid: nat, joiner: PID, heads: UInt16, key: nat, now: nat, pid: PID)
    ensures pid in Joined(Opened(session, gid, joiner, key, now), joiner, heads).participants ==> pid == joiner
  {
    JoiningLetsIn(Opened(session, gid, joiner, key, now), joiner, heads, pid);
  }

  lemma LeavingLetsNobodyIn(g: Gathering, leaver: PID, pid: PID)
    ensures pid in Left(g, leaver).participants ==> pid in g.participants
  {
    WithoutFacts(g.participants, leaver);
    hide Without;
  }

  /** A move lets at most its own player in, and into one gathering only. */
  lemma MoveLetsIn(env: Env, s: State, move: Move, pid: PID, gid: nat)
    requires Within(Apply(env, s, move), pid, gid) && !Within(s, pid, gid)
    ensures LetsIn(move, pid) && gid == if move.Open? then s.nextGatheringID else move.gid
  {
    hide JoinEvents, LeaveEvents, Joined, Left, Opened, EndsWith;
    match move
    case Leave(_, leaver, _, _) =>
      if gid in s.sessions { LeavingLetsNobodyIn(s.sessions[gid], leaver, pid); }
    case Admit(_, joiner, heads, _) =>
      if gid in s.sessions { JoiningLetsIn(s.sessions[gid], joiner, heads, pid); }
    case Open(session, joiner, heads, _, key, now) =>
      OpeningLetsIn(session, s.nextGatheringID, joiner, heads, key, now, pid);
    case _ =>
  }

  lemma {:induction false} NobodyLetIn(env: Env, s: State, moves: seq<Move>, pid: PID, gid: nat)
    requires forall i :: 0 <= i < |moves| ==> !LetsIn(moves[i], pid)
    requires Within(ApplyAll(env, s, moves), pid, gid)
    ensures Within(s, pid, gid)
  {
    if moves == [] {
    } else {
      hide Within, LetsIn, Apply;
      var t := ApplyAll(env, s, Init(moves));
      if !Within(t, pid, gid) { MoveLetsIn(env, t, Last(moves), pid, gid); }
      NobodyLetIn(env, s, Init(moves), pid, gid);
    }
  }

  /** A request lets nobody in but its caller, and without a request to join only after taking it out of everything. */
  lemma HandlersLetIn(env: Env, s: State, caller: PID, request: Request, pid: PID)
    requires Possible(env, s, caller, request)
    requires caller != pid || !(LeavesAll(request) || request.JoinMatchmakeSession? || request.ParticipateIn?)
    ensures var moves := Handle(env, s, caller, request).moves;
            forall i :: 0 <= i < |moves| ==> !LetsIn(moves[i], pid)
  {
    hide Handle, Possible, Departures;
    var moves := Handle(env, s, caller, request).moves;
    if LeavesAll(request) {
      ChangesFollowDepartures(env, s, caller, request);
      HandlersMoveOwn(env, s, caller, request);
      assert moves != [] ==> moves == Init(moves) + [Last(moves)];
    } else if OnlyMoves(request) {
      JoinsMoveOwn(env, s, caller, request);
      assert forall i :: 0 <= i < |moves| ==> moves[i] in moves;
    } else {
      HandlersRevise(env, s, caller, request);
    }
  }

  lemma NobodyIsLeft(env: Env, s: State, order: seq<nat>, pid: PID)
    requires Inv(s) && Enumerates(order, s.sessions.Keys)
    ensures forall gid :: !Within(ApplyAll(env, s, Departures(order, pid, Disconnect)), pid, gid)
  {
    hide ApplyAll, Departures, Scrubbed, Inv, Enumerates;
    DisconnectClosedForm(env, s, order, pid, Disconnect);
    DisconnectForgets(s, pid);
  }

  lemma LeavingAllLeavesOne(env: Env, s: State, pid: PID, request: Request)
    requires Inv(s) && InAtMostOne(s, pid) && Possible(env, s, pid, request) && LeavesAll(request)
    ensures InAtMostOne(Step(env, s, pid, request), pid)
  {
    NobodyIsLeft(env, s, request.order, pid);
    hide Handle, Inv, Possible, Enumerates, Apply, Departures, Within;
    ChangesFollowDepartures(env, s, pid, request);
    HandlersMoveOwn(env, s, pid, request);
    var moves := Handle(env, s, pid, request).moves;
    var t := Step(env, s, pid, request);
    assert ApplyAll(env, s, []) == s;
    forall a, b | Within(t, pid, a) && Within(t, pid, b) ensures a == b {
      if moves == [] || Last(moves).Leave? {
        OnlyLeavesShrink(env, s, moves, pid, a);
        OnlyLeavesShrink(env, s, moves, pid, b);
      } else {
        MoveLetsIn(env, ApplyAll(env, s, Init(moves)), Last(moves), pid, a);
        MoveLetsIn(env, ApplyAll(env, s, Init(moves)), Last(moves), pid, b);
      }
    }
  }

  lemma OnlyLeavesShrink(env: Env, s: State, moves: seq<Move>, pid: PID, gid: nat)
    requires moves == [] || (OnlyLeaves(Init(moves)) && Last(moves).Leave?)
    requires Within(ApplyAll(env, s, moves), pid, gid)
    ensures Within(s, pid, gid)
  {
    hide Within, ApplyAll;
    assert moves != [] ==> moves == Init(moves) + [Last(moves)];
    assert forall i :: 0 <= i < |moves| ==> !LetsIn(moves[i], pid);
    NobodyLetIn(env, s, moves, pid, gid);
  }

  lemma StepKeepsToOne(env: Env, s: State, call: Call, pid: PID)
    requires Inv(s) && InAtMostOne(s, pid) && Possible(env, s, call.pid, call.request)
    requires call.pid == pid ==> !call.request.JoinMatchmakeSession? && !call.request.ParticipateIn?
    ensures InAtMostOne(Step(env, s, call.pid, call.request), pid)
  {
    if call.pid == pid && LeavesAll(call.request) {
      LeavingAllLeavesOne(env, s, pid, call.request);
    } else {
      HandlersLetIn(env, s, call.pid, call.request, pid);
      hide Handle, Inv, Possible, ApplyAll, LetsIn, Within;
      var moves := Handle(env, s, call.pid, call.request).moves;
      var t := Step(env, s, call.pid, call.request);
      forall gid | Within(t, pid, gid) ensures Within(s, pid, gid) {
        NobodyLetIn(env, s, moves, pid, gid);
      }
    }
  }

  /** The player never asks to join a gathering by its ID. */
  predicate NeverJoins(calls: seq<Call>, pid: PID) {
    forall i :: 0 <= i < |calls| && calls[i].pid == pid ==>
      !calls[i].request.JoinMatchmakeSession? && !calls[i].request.ParticipateIn?
  }

  /** A player who only creates gatherings and uses automatic matchmaking is never in two of them. */
  lemma {:induction false} RunKeepsToOne(env: Env, calls: seq<Call>, pid: PID)
    requires Reachable(env, calls) && NeverJoins(calls, pid)
    ensures InAtMostOne(Final(env, calls), pid)
  {
    if calls == [] {
    } else {
      hide Step, Possible, Inv, InAtMostOne;
      RunKeepsToOne(env, Init(calls), pid);
      RunKeepsInv(env, Init(calls));
      StepKeepsToOne(env, Final(env, Init(calls)), Last(calls), pid);
    }
  }
}
