/** The gathering store as the server runs it: session objects in a map, updated in place.
    Every operation is proved against the moves of module Gatherings. */
module GatheringStore {
  import opened Common
  import opened Gatherings

  class Session {
    var info: MatchmakeSession
    var participants: seq<PID>
    var url: string

    constructor (info: MatchmakeSession)
      ensures Snapshot() == Gathering(info, [], "")
    {
      this.info, participants, url := info, [], "";
    }

    function Snapshot(): Gathering
      reads this
    {
      Gathering(info, participants, url)
    }

    method Contains(pid: PID) returns (found: bool)
      ensures found <==> pid in participants
    {
      for i := 0 to |participants|
        invariant pid !in participants[..i]
      {
        if participants[i] == pid { return true; }
      }
      return false;
    }

    /** Appends one copy of pid for each of its players. */
    method AddParticipants(pid: PID, vacant: UInt16)
      modifies this
      ensures Snapshot() == Gatherings.Joined(old(Snapshot()), pid, vacant)
    {
      for i := 0 to vacant
        invariant info == old(info) && url == old(url)
        invariant participants == old(participants) + Copies(pid, i)
      {
        participants := participants + [pid];
        assert old(participants) + Copies(pid, i) + [pid] == old(participants) + Copies(pid, i + 1);
      }
      info := info.(participationCount := U32(|participants|));
    }

    /** Filters out every copy of pid. */
    method RemoveParticipant(pid: PID)
      modifies this
      ensures participants == Without(old(participants), pid) && url == old(url)
      ensures info == old(info).(participationCount := U32(|participants|))
    {
      var remaining := [];
      for i := 0 to |participants|
        invariant info == old(info) && url == old(url) && participants == old(participants)
        invariant remaining == Without(participants[..i], pid)
      {
        assert Init(participants[..i + 1]) == participants[..i];
        if participants[i] != pid { remaining := remaining + [participants[i]]; }
      }
      assert participants[..|participants|] == participants;
      participants := remaining;
      info := info.(participationCount := U32(|remaining|));
    }
  }

  /** What JoinLocked answers: the new head count, or why not. */
  datatype JoinResult = Joined(total: nat) | Refused(error: Error)

  function JoinOutcome(g: Gathering, pid: PID, vacantParticipants: UInt16): JoinResult {
    match JoinError(g, pid, vacantParticipants)
    case Some(error) => Refused(error)
    case None => Joined(Gatherings.Joined(g, pid, Heads(vacantParticipants)).HeadCount())
  }

  lemma JoinedKeeps(g: Gathering, pid: PID, heads: UInt16)
    ensures Gatherings.Joined(g, pid, heads).info
            == g.info.(participationCount := Gatherings.Joined(g, pid, heads).HeadCount())
  {
  }

  lemma OwnJoinIsSilent(env: Env, g: Gathering, pid: PID, heads: UInt16, message: string)
    requires !g.info.flags.notifyAll && !g.info.flags.notifyAllReproducibly && pid == g.info.ownerPID
    ensures JoinEvents(env, g, pid, heads, message) == []
  {
  }

  /** A gathering between the filtering of its participants and the fate of its roles. */
  function Filtered(g: Gathering, pid: PID): Gathering {
    var remaining := Without(g.participants, pid);
    g.(participants := remaining, info := g.info.(participationCount := U32(|remaining|)))
  }

  lemma LeaveInSteps(env: Env, s: State, gid: nat, pid: PID, kind: LeaveKind, message: string)
    requires gid in s.sessions && pid in s.sessions[gid].participants && s.sessions[gid].info.id == gid
    ensures var g := s.sessions[gid];
            var filtered := Filtered(g, pid);
            var t := s.(sessions := s.sessions[gid := filtered],
                        log := s.log + LeaveEvents(env, g, pid, kind, message));
            Gatherings.LeaveLocked(env, s, gid, pid, kind, message) ==
              if g.info.ownerPID == pid || |filtered.participants| == 0 then t.(sessions := t.sessions - {gid})
              else if g.info.hostPID == pid
              then Apply(env, t, Revise(gid, filtered.info.(hostPID := g.info.ownerPID), g.url))
              else t
  {
    hide LeaveEvents;
    var g := s.sessions[gid];
    assert s.sessions[gid := Filtered(g, pid)] - {gid} == s.sessions - {gid};
  }

  class Store {
    const env: Env
    var sessions: map<nat, Session>
    var nextGatheringID: UInt32
    ghost var log: seq<Event>

    constructor (env: Env)
      ensures Valid() && Abs() == EMPTY && this.env == env && fresh(sessions.Values)
    {
      this.env, sessions, nextGatheringID, log := env, map[], 1, [];
    }

    ghost predicate Valid()
      reads this, sessions.Values
    {
      forall gid :: gid in sessions ==> sessions[gid].info.id == gid
    }

    ghost function Abs(): State
      reads this, sessions.Values
    {
      State(map gid | gid in sessions :: sessions[gid].Snapshot(), nextGatheringID, log)
    }

    ghost predicate Holds(session: Session)
      reads this, session
    {
      session.info.id in sessions && sessions[session.info.id] == session
    }

    /** When one stored session changed in place, so did its entry in the abstract store, and nothing else. */
    twostate lemma ChangedInPlace(session: Session)
      requires old(Valid()) && old(Holds(session)) && sessions == old(sessions)
               && nextGatheringID == old(nextGatheringID)
      requires session.info.id == old(session.info.id)
      requires forall gid :: gid in sessions && gid != session.info.id ==> unchanged(sessions[gid])
      ensures Valid() && Holds(session)
      ensures session.info.id in old(Abs()).sessions && old(Abs()).sessions[session.info.id] == old(session.Snapshot())
      ensures Abs() == old(Abs()).(sessions := old(Abs()).sessions[session.info.id := session.Snapshot()], log := log)
      ensures old(Abs()).log == old(log)
    {
      assert Abs().sessions == old(Abs()).sessions[session.info.id := session.Snapshot()];
    }

    /** AllLocked: the live sessions in whatever order the map yields them. */
    method AllLocked() returns (all: seq<Session>, ghost order: seq<nat>)
      ensures Enumerates(order, sessions.Keys) && |all| == |order|
      ensures forall i :: 0 <= i < |all| ==> order[i] in sessions && all[i] == sessions[order[i]]
    {
      all, order := [], [];
      var left := sessions.Keys;
      while left != {}
        invariant left <= sessions.Keys && SetOf(order) == sessions.Keys - left
        invariant NoDuplicates(order) && |all| == |order|
        invariant forall i :: 0 <= i < |all| ==>
                    order[i] in sessions && order[i] !in left && all[i] == sessions[order[i]]
      {
        var gid :| gid in left;
        ghost var seen := order;
        all, order, left := all + [sessions[gid]], order + [gid], left - {gid};
        assert SetOf(order) == SetOf(seen) + {gid};
      }
    }

    /** notifyParticipation and the notification library behind it. */
    ghost method NotifyParticipation(event: Event)
      modifies this`log
      ensures log == old(log) + Announce(env, event)
    {
      log := log + Announce(env, event);
    }

    /** The notification library's send, for the events that are not about participation. */
    ghost method SendNotificationEvent(event: Event)
      requires Valid()
      modifies this`log
      ensures Valid() && Abs() == Apply(env, old(Abs()), Send(event))
    {
      log := log + [event];
    }

    method CreateLocked(pid: PID, request: MatchmakeSession, key: nat, now: nat) returns (stored: Session)
      requires Valid()
      modifies this
      ensures fresh(stored) && sessions == old(sessions)[old(nextGatheringID) := stored]
      ensures Valid() && Holds(stored) && stored.Snapshot() == Opened(request, old(nextGatheringID), pid, key, now)
      ensures Abs() == Gatherings.CreateLocked(old(Abs()), request, pid, key, now)
    {
      hide Opened, U32;
      var gatheringID := nextGatheringID;
      nextGatheringID := U32(nextGatheringID + 1);
      stored := NewSession(gatheringID, pid, request, key, now);
      sessions := sessions[gatheringID := stored];
      assert Abs().sessions == old(Abs()).sessions[gatheringID := stored.Snapshot()];
    }

    /** The record a new session starts from. */
    method NewSession(gatheringID: nat, pid: PID, request: MatchmakeSession, key: nat, now: nat)
      returns (stored: Session)
      ensures fresh(stored) && stored.info.id == gatheringID
      ensures stored.Snapshot() == Opened(request, gatheringID, pid, key, now)
    {
      var session := request.(id := gatheringID, ownerPID := pid, hostPID := pid, startedTime := now, sessionKey := key,
                              userPasswordEnabled := |request.userPassword| > 0, systemPasswordEnabled := false);
      stored := new Session(session);
    }

    /** Announces the players who were there already to the newcomer. */
    method ReplayParticipants(gatheringID: nat, pid: PID, previous: seq<PID>, message: string, total: nat)
      modifies this`log
      ensures log == old(log) + Replays(env, gatheringID, pid, Dedup(previous), message, total)
    {
      var known := RemoveDuplicates(previous);
      assert log == old(log) + [];
      for i := 0 to |known|
        invariant log == old(log) + Replays(env, gatheringID, pid, known[..i], message, total)
      {
        assert Init(known[..i + 1]) == known[..i] && Last(known[..i + 1]) == known[i];
        NotifyParticipation(Participation(pid, Participate, gatheringID, known[i], message, total, [pid]));
      }
      assert known[..|known|] == known;
    }

    /** Tells those who must know that pid joined. */
    method NotifyJoin(after: Gathering, pid: PID, previous: seq<PID>, message: string, ghost before: Gathering,
                      ghost heads: UInt16)
      requires after == Gatherings.Joined(before, pid, heads) && previous == before.participants
      modifies this`log
      ensures log == old(log) + JoinEvents(env, before, pid, heads, message)
    {
      hide Announce, Replays, Gatherings.Joined;
      var total, flags, gatheringID := after.HeadCount(), after.info.flags, after.info.id;
      assert gatheringID == before.info.id && flags == before.info.flags by { JoinedKeeps(before, pid, heads); }
      assert after.info.ownerPID == before.info.ownerPID by { JoinedKeeps(before, pid, heads); }
      var targets: seq<PID>;
      if flags.notifyAll || flags.notifyAllReproducibly {
        targets := RemoveDuplicates(after.participants);
      } else {
        if pid == after.info.ownerPID {
          OwnJoinIsSilent(env, before, pid, heads, message);
          return;
        }
        targets := [after.info.ownerPID];
      }
      NotifyParticipation(Participation(pid, Participate, gatheringID, pid, message, total, targets));
      if flags.notifyAllReproducibly { ReplayParticipants(gatheringID, pid, previous, message, total); }
    }

    method JoinLocked(session: Session, pid: PID, vacantParticipants: UInt16, message: string)
      returns (result: JoinResult)
      requires Valid() && Holds(session)
      modifies this`log, session
      ensures Valid() && Holds(session) && session.info.id == old(session.info.id)
      ensures result == JoinOutcome(old(session.Snapshot()), pid, vacantParticipants)
      ensures result.Refused? ==> Abs() == old(Abs())
      ensures result.Joined? ==>
                && session.Snapshot() == Gatherings.Joined(old(session.Snapshot()), pid, Heads(vacantParticipants))
                && Abs() == Gatherings.JoinLocked(env, old(Abs()), old(session.info.id), pid, Heads(vacantParticipants),
                                                  message)
    {
      hide JoinEvents, Abs;
      var vacant: UInt16 := if vacantParticipants == 0 then 1 else vacantParticipants;
      var already := session.Contains(pid);
      if already { return Refused(AlreadyParticipatedGathering); }
      var maximum := session.info.maximumParticipants;
      if maximum != 0 && U32(U32(|session.participants|) + vacant) > maximum { return Refused(SessionFull); }

      ghost var before := session.Snapshot();
      var previous := session.participants;
      session.AddParticipants(pid, vacant);
      NotifyJoin(session.Snapshot(), pid, previous, message, before, vacant);
      ChangedInPlace(session);
      return Joined(U32(|session.participants|));
    }

    method NotifyLeave(gatheringID: nat, pid: PID, kind: LeaveKind, message: string, remaining: seq<PID>,
                       ghost before: Gathering)
      requires gatheringID == before.info.id && remaining == Without(before.participants, pid)
      modifies this`log
      ensures log == old(log) + LeaveEvents(env, before, pid, kind, message)
    {
      var targets := RemoveDuplicates(remaining);
      NotifyParticipation(Participation(pid, kind, gatheringID, pid, message, U32(|remaining|), targets));
    }

    method LeaveLocked(session: Session, pid: PID, kind: LeaveKind, message: string)
      requires Valid() && Holds(session)
      modifies this`sessions, this`log, session
      ensures Valid() && session.info.id == old(session.info.id)
      ensures sessions == old(sessions) || sessions == old(sessions) - {session.info.id}
      ensures Abs() == Gatherings.LeaveLocked(env, old(Abs()), old(session.info.id), pid, kind, message)
    {
      hide LeaveEvents, Abs;
      ghost var before := session.Snapshot();
      var contains := session.Contains(pid);
      if !contains {
        ChangedInPlace(session);
        return;
      }
      LeaveFor(session, pid, kind, message);
    }

    /** LeaveLocked past its guard. */
    method LeaveFor(session: Session, pid: PID, kind: LeaveKind, message: string)
      requires Valid() && Holds(session) && pid in session.participants
      modifies this`sessions, this`log, session
      ensures Valid() && session.info.id == old(session.info.id)
      ensures sessions == old(sessions) || sessions == old(sessions) - {session.info.id}
      ensures Abs() == Gatherings.LeaveLocked(env, old(Abs()), old(session.info.id), pid, kind, message)
    {
      hide LeaveEvents, Abs, Apply, Gatherings.LeaveLocked;
      ghost var before := session.Snapshot();
      session.RemoveParticipant(pid);
      var gatheringID := session.info.id;
      NotifyLeave(gatheringID, pid, kind, message, session.participants, before);
      ChangedInPlace(session);
      LeaveInSteps(env, old(Abs()), gatheringID, pid, kind, message);
      assert session.Snapshot() == Filtered(before, pid);
      if session.info.ownerPID == pid || |session.participants| == 0 {
        Forget(gatheringID);
        return;
      }
      if session.info.hostPID == pid {
        Replace(session, session.info.(hostPID := session.info.ownerPID), session.url);
      }
    }

    /** Assigns a stored session's record and URL. */
    method Replace(session: Session, info: MatchmakeSession, url: string)
      requires Valid() && Holds(session) && info.id == session.info.id
      modifies session
      ensures Valid() && Holds(session) && session.info == info && session.url == url
              && session.participants == old(session.participants)
      ensures Abs() == Apply(env, old(Abs()), Revise(info.id, info, url))
    {
      session.info, session.url := info, url;
      ChangedInPlace(session);
    }

    method Forget(gatheringID: nat)
      requires Valid()
      modifies this`sessions
      ensures Valid() && sessions == old(sessions) - {gatheringID}
      ensures Abs() == old(Abs()).(sessions := old(Abs()).sessions - {gatheringID})
    {
      sessions := sessions - {gatheringID};
      assert Abs().sessions == old(Abs()).sessions - {gatheringID};
    }

    /** One gathering's turn in RemoveConnectionLocked. */
    method Drop(session: Session, pid: PID, kind: LeaveKind)
      requires Valid() && Holds(session)
      modifies this`sessions, this`log, session
      ensures Valid() && session.info.id == old(session.info.id)
      ensures sessions == old(sessions) || sessions == old(sessions) - {session.info.id}
      ensures Abs() == Apply(env, old(Abs()), Leave(session.info.id, pid, kind, ""))
    {
      var contains := session.Contains(pid);
      if contains { LeaveLocked(session, pid, kind, ""); }
    }

    /** Drops a player from every gathering, whatever the order of the map. */
    method RemoveConnectionLocked(pid: PID, kind: LeaveKind) returns (ghost order: seq<nat>)
      requires Valid()
      modifies this`sessions, this`log, sessions.Values
      ensures Valid() && sessions.Values <= old(sessions.Values)
      ensures Enumerates(order, old(sessions.Keys))
      ensures Abs() == ApplyAll(env, old(Abs()), Departures(order, pid, kind))
    {
      hide Apply, Abs, Enumerates, SetOf;
      var all;
      all, order := AllLocked();
      Unrepeated(order, old(sessions.Keys));
      assert order[..0] == [] && order[..|all|] == order;
      assert ApplyAll(env, Abs(), Departures([], pid, kind)) == Abs();
      hide ApplyAll, Departures;
      for i := 0 to |all|
        invariant Valid() && sessions.Values <= old(sessions.Values)
        invariant forall k :: i <= k < |all| ==> order[k] in sessions && sessions[order[k]] == all[k]
        invariant Abs() == ApplyAll(env, old(Abs()), Departures(order[..i], pid, kind))
      {
        OneMoreDeparture(env, old(Abs()), order, i, pid, kind);
        Drop(all[i], pid, kind);
      }
    }
  }

  lemma OneMoreDeparture(env: Env, s: State, order: seq<nat>, i: nat, pid: PID, kind: LeaveKind)
    requires i < |order|
    ensures ApplyAll(env, s, Departures(order[..i + 1], pid, kind))
            == Apply(env, ApplyAll(env, s, Departures(order[..i], pid, kind)), Leave(order[i], pid, kind, ""))
  {
    hide Apply;
    assert Init(order[..i + 1]) == order[..i] && Last(order[..i + 1]) == order[i];
    ApplyAllSnoc(env, s, Departures(order[..i], pid, kind), Leave(order[i], pid, kind, ""));
  }

  lemma Unrepeated(order: seq<nat>, keys: set<nat>)
    requires Enumerates(order, keys)
    ensures forall i, k :: 0 <= i < k < |order| ==> order[i] != order[k]
  {
  }

  /** commonglobals.RemoveDuplicates keeps the first occurrence of each element. */
  method RemoveDuplicates(list: seq<PID>) returns (distinct: seq<PID>)
    ensures distinct == Dedup(list)
  {
    distinct := [];
    for i := 0 to |list|
      invariant distinct == Dedup(list[..i])
    {
      assert Init(list[..i + 1]) == list[..i];
      DedupFacts(list[..i]);
      if list[i] !in distinct { distinct := distinct + [list[i]]; }
    }
    assert list[..|list|] == list;
  }
}
