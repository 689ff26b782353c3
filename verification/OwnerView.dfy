/** Where a gathering has neither notification flag, its owner alone hears of joins, and knows who takes part. */
module OwnerView {
  import opened Common
  import opened Gatherings
  import opened Handlers
  import opened Invariants
  import opened Runs
  import opened Authority
  import opened Views
  import opened Records

  /** The gathering is live, has neither flag and belongs to the player. */
  ghost predicate Quiet(s: State, gid: nat, owner: PID) {
    && gid in s.sessions && s.sessions[gid].info.ownerPID == owner
    && !s.sessions[gid].info.flags.notifyAll && !s.sessions[gid].info.flags.notifyAllReproducibly
  }

  /** What the owner makes of everything it was sent since the log had the given length: all players but itself. */
  ghost predicate OwnerKnows(s: State, gid: nat, owner: PID, since: nat) {
    && since <= |s.log| && gid in s.sessions
    && Replay({}, s.log[since..], gid, owner) == SetOf(s.sessions[gid].participants) - {owner}
  }

  /** A join by somebody else is one event, to the owner; a join by the owner is none. */
  lemma OwnerHears(env: Env, g: Gathering, pid: PID, heads: UInt16, message: string)
    requires env.endpoint && !g.info.flags.notifyAll && !g.info.flags.notifyAllReproducibly
    ensures JoinEvents(env, g, pid, heads, message)
            == if pid == g.info.ownerPID then []
               else [Participation(pid, Participate, g.info.id, pid, message,
                                   |Joined(g, pid, heads).participants| % 0x1_0000_0000, [g.info.ownerPID])]
  {
    hide Copies;
  }

  lemma LogGrows(s: State, t: State, events: seq<Event>, gid: nat, owner: PID, since: nat)
    requires t.log == s.log + events && since <= |s.log|
    ensures Replay({}, t.log[since..], gid, owner) == Replay(Replay({}, s.log[since..], gid, owner), events, gid, owner)
  {
    assert t.log[since..] == s.log[since..] + events;
    ReplayConcat({}, s.log[since..], events, gid, owner);
  }

  lemma JoinKeepsOwnerView(env: Env, s: State, g: nat, pid: PID, heads: UInt16, message: string, gid: nat, owner: PID,
                           since: nat)
    requires env.endpoint && heads >= 1 && g in s.sessions && s.sessions[g].info.id == g
    requires pid !in s.sessions[g].participants && (g == gid ==> owner in s.sessions[g].participants)
    requires Quiet(s, gid, owner) && OwnerKnows(s, gid, owner, since)
    ensures OwnerKnows(JoinLocked(env, s, g, pid, heads, message), gid, owner, since)
  {
    var t := JoinLocked(env, s, g, pid, heads, message);
    var view := Replay({}, s.log[since..], gid, owner);
    LogGrows(s, t, JoinEvents(env, s.sessions[g], pid, heads, message), gid, owner, since);
    if g == gid {
      OwnerHears(env, s.sessions[g], pid, heads, message);
      JoinedMembers(s.sessions[g], pid, heads);
      hide Joined, JoinEvents;
      var event := Participation(pid, Participate, g, pid, message,
                                 |Joined(s.sessions[g], pid, heads).participants| % 0x1_0000_0000, [owner]);
      ReplayOne(view, event, gid, owner);
      assert owner in event.targets;
    } else {
      JoinEventsStayInside(env, s.sessions[g], view, pid, heads, message, gid, owner);
    }
  }

  lemma LeaveKeepsOwnerView(env: Env, s: State, g: nat, pid: PID, kind: LeaveKind, message: string, gid: nat,
                            owner: PID, since: nat)
    requires env.endpoint && g in s.sessions && s.sessions[g].info.id == g
    requires Quiet(s, gid, owner) && OwnerKnows(s, gid, owner, since) && owner in s.sessions[gid].participants
    requires gid in LeaveLocked(env, s, g, pid, kind, message).sessions
    ensures OwnerKnows(LeaveLocked(env, s, g, pid, kind, message), gid, owner, since)
  {
    var t := LeaveLocked(env, s, g, pid, kind, message);
    var before := s.sessions[g];
    if pid in before.participants {
      var view := Replay({}, s.log[since..], gid, owner);
      var remaining := Without(before.participants, pid);
      var event := Participation(pid, kind, g, pid, message, U32(|remaining|), Dedup(remaining));
      LogGrows(s, t, LeaveEvents(env, before, pid, kind, message), gid, owner, since);
      WithoutFacts(before.participants, pid);
      DedupFacts(remaining);
      hide Without, Dedup;
      if g == gid {
        assert owner in remaining;
        assert owner in event.targets;
        ReplayOne(view, event, gid, owner);
        assert SetOf(remaining) == SetOf(before.participants) - {pid};
      } else {
        ReplayIgnores(view, LeaveEvents(env, before, pid, kind, message), gid, owner);
      }
    }
  }

  lemma MoveKeepsOwnerView(env: Env, s: State, move: Move, gid: nat, owner: PID, since: nat)
    requires env.endpoint && Inv(s) && Legal(s, move) && (gid == s.nextGatheringID ==> !Creates([move]))
    requires Quiet(s, gid, owner) && OwnerKnows(s, gid, owner, since) && gid in Apply(env, s, move).sessions
    ensures OwnerKnows(Apply(env, s, move), gid, owner, since)
  {
    match move
    case Leave(g, pid, kind, message) =>
      if g in s.sessions { LeaveKeepsOwnerView(env, s, g, pid, kind, message, gid, owner, since); }
    case Admit(g, pid, heads, message) => JoinKeepsOwnerView(env, s, g, pid, heads, message, gid, owner, since);
    case Open(request, pid, heads, message, key, now) =>
      var t := CreateLocked(s, request, pid, key, now);
      hide JoinLocked, Opened;
      OpenedApart(request, s.nextGatheringID, pid, key, now);
      JoinKeepsOwnerView(env, t, s.nextGatheringID, pid, heads, message, gid, owner, since);
    case Send(event) =>
      LogGrows(s, Apply(env, s, move), [event], gid, owner, since);
      ReplayOne(Replay({}, s.log[since..], gid, owner), event, gid, owner);
    case _ =>
      assert Apply(env, s, move).log == s.log;
  }

  lemma OpenedApart(request: MatchmakeSession, gid: nat, pid: PID, key: nat, now: nat)
    ensures Opened(request, gid, pid, key, now).info.id == gid && Opened(request, gid, pid, key, now).participants == []
  {
  }

  /** Departures leave a gathering quiet that outlives them. */
  lemma LeaveKeepsQuiet(env: Env, s: State, move: Move, gid: nat, owner: PID)
    requires move.Leave? && Quiet(s, gid, owner) && gid in Apply(env, s, move).sessions
    ensures Quiet(Apply(env, s, move), gid, owner)
  {
    hide Without;
  }

  lemma {:induction false} LeavesKeepOwnerView(env: Env, s: State, moves: seq<Move>, gid: nat, owner: PID, since: nat)
    requires env.endpoint && Inv(s) && OnlyLeaves(moves) && Quiet(s, gid, owner) && OwnerKnows(s, gid, owner, since)
    requires gid in ApplyAll(env, s, moves).sessions
    ensures Quiet(ApplyAll(env, s, moves), gid, owner) && OwnerKnows(ApplyAll(env, s, moves), gid, owner, since)
  {
    if moves == [] {
    } else {
      hide Apply, Quiet, OwnerKnows, Inv;
      var mid := ApplyAll(env, s, Init(moves));
      LeavesAreLegal(env, s, Init(moves));
      MovesKeepInv(env, s, Init(moves));
      LastLeaveKeeps(env, mid, Last(moves), gid);
      LeavesKeepOwnerView(env, s, Init(moves), gid, owner, since);
      MoveKeepsOwnerView(env, mid, Last(moves), gid, owner, since);
      LeaveKeepsQuiet(env, mid, Last(moves), gid, owner);
    }
  }

  lemma LastLeaveKeeps(env: Env, s: State, move: Move, gid: nat)
    requires move.Leave? && gid in Apply(env, s, move).sessions
    ensures gid in s.sessions
  {
  }

  lemma MovesKeepOwnerView(env: Env, s: State, moves: seq<Move>, gid: nat, owner: PID, since: nat)
    requires env.endpoint && Inv(s) && AllLegal(env, s, moves) && Shaped(moves)
    requires gid == s.nextGatheringID ==> !Creates(moves)
    requires Quiet(s, gid, owner) && OwnerKnows(s, gid, owner, since)
    requires Quiet(ApplyAll(env, s, moves), gid, owner)
    ensures OwnerKnows(ApplyAll(env, s, moves), gid, owner, since)
  {
    hide Apply, Quiet, OwnerKnows, Inv, Legal;
    if moves != [] {
      var before := Init(moves);
      var mid := ApplyAll(env, s, before);
      MovesKeepInv(env, s, before);
      MoveNextID(env, mid, Last(moves));
      QuietIsLive(ApplyAll(env, s, moves), gid, owner);
      if OnlyLeaves(before) {
        LeavesAreLegal(env, s, before);
        LeavesKeepOwnerView(env, s, before, gid, owner, since);
      } else {
        assert before == [moves[0]] && Init(before) == [] && ApplyAll(env, s, []) == s;
        MoveKeepsOwnerView(env, s, moves[0], gid, owner, since);
        SendKeepsQuiet(env, mid, Last(moves), gid, owner);
      }
      MoveKeepsOwnerView(env, mid, Last(moves), gid, owner, since);
    }
  }

  lemma QuietIsLive(s: State, gid: nat, owner: PID)
    requires Quiet(s, gid, owner)
    ensures gid in s.sessions
  {
  }

  lemma SendKeepsQuiet(env: Env, s: State, move: Move, gid: nat, owner: PID)
    requires move.Send?
    ensures Quiet(Apply(env, s, move), gid, owner) <==> Quiet(s, gid, owner)
  {
  }

  /** Since the log had the given length, when the owner was alone in it, the gathering was live and quiet in every
      state, and no request took its ID. */
  ghost predicate Watched(env: Env, calls: seq<Call>, gid: nat, owner: PID, since: nat)
    requires Reachable(env, calls)
  {
    var s := Final(env, calls);
    && Quiet(s, gid, owner)
    && ((|s.log| == since && SetOf(s.sessions[gid].participants) == {owner})
        || (calls != [] && Watched(env, Init(calls), gid, owner, since)
            && !Taken(env, Final(env, Init(calls)), Last(calls).pid, Last(calls).request, gid)))
  }

  /** While a gathering has neither flag, its owner's list of the others is exact in every run. */
  lemma {:induction false} RunKeepsOwnerView(env: Env, calls: seq<Call>, gid: nat, owner: PID, since: nat)
    requires env.endpoint && Reachable(env, calls) && Watched(env, calls, gid, owner, since)
    ensures OwnerKnows(Final(env, calls), gid, owner, since)
  {
    var t := Final(env, calls);
    if |t.log| == since && SetOf(t.sessions[gid].participants) == {owner} {
      assert t.log[since..] == [];
    } else {
      var s, pid, request := Final(env, Init(calls)), Last(calls).pid, Last(calls).request;
      RunKeepsOwnerView(env, Init(calls), gid, owner, since);
      RunKeepsInv(env, Init(calls));
      HandlersAreLegal(env, s, pid, request);
      HandlersAreShaped(env, s, pid, request);
      hide Handle, Possible, Inv, Shaped, AllLegal, OwnerKnows;
      MovesKeepOwnerView(env, s, Handle(env, s, pid, request).moves, gid, owner, since);
    }
  }

  /** Such a run begins when a player registers a gathering with neither flag. */
  lemma RegistrationIsWatched(env: Env, calls: seq<Call>, owner: PID, request: Request)
    requires Reachable(env, calls) && Possible(env, Final(env, calls), owner, request)
    requires request.RegisterGathering? && ValidSession(request.session, request.fits)
    requires !request.session.flags.notifyAll && !request.session.flags.notifyAllReproducibly
    ensures Reachable(env, calls + [Call(owner, request)])
    ensures var after := calls + [Call(owner, request)];
            Watched(env, after, Final(env, calls).nextGatheringID, owner, |Final(env, after).log|)
  {
    var s := Final(env, calls);
    OneMoreCall(env, calls, Call(owner, request));
    RegisteredAlone(env, s, owner, request);
    hide Reachable, Final, Possible, Step;
  }

  lemma RegisteredAlone(env: Env, s: State, owner: PID, request: Request)
    requires Possible(env, s, owner, request)
    requires request.RegisterGathering? && ValidSession(request.session, request.fits)
    requires !request.session.flags.notifyAll && !request.session.flags.notifyAllReproducibly
    ensures var t := Step(env, s, owner, request);
            Quiet(t, s.nextGatheringID, owner) && SetOf(t.sessions[s.nextGatheringID].participants) == {owner}
  {
    CreationGives(env, s, owner, request);
    hide Handle, Step, Possible, Fresh, Quiet;
    FreshIsQuiet(Step(env, s, owner, request), s.nextGatheringID, request, owner);
  }

  lemma FreshIsQuiet(t: State, gid: nat, request: Request, owner: PID)
    requires request.RegisterGathering? && gid in t.sessions
    requires Fresh(t.sessions[gid], request.session, gid, owner, 1, request.key, request.now)
    requires !request.session.flags.notifyAll && !request.session.flags.notifyAllReproducibly
    ensures Quiet(t, gid, owner) && SetOf(t.sessions[gid].participants) == {owner}
  {
    assert t.sessions[gid].participants[0] in t.sessions[gid].participants;
  }
}
