/** What the players' consoles believe: each client's replay of the notifications it received. */
module Views {
  import opened Common
  import opened Gatherings
  import opened Handlers
  import opened Invariants
  import opened Runs

  /** A client follows one gathering: its own join starts the list, joins add, every way of leaving removes. */
  function Receive(view: set<PID>, event: Event, gid: nat, client: PID): set<PID> {
    if !event.Participation? || event.gid != gid || client !in event.targets then view
    else if event.kind != Participate then view - {event.subject}
    else if event.subject == client then {client}
    else view + {event.subject}
  }

  function Replay(view: set<PID>, events: seq<Event>, gid: nat, client: PID): set<PID> {
    if events == [] then view
    else Receive(Replay(view, Init(events), gid, client), Last(events), gid, client)
  }

  /** The participant list a client ends up with after everything sent so far. */
  function View(s: State, gid: nat, client: PID): set<PID> { Replay({}, s.log, gid, client) }

  /** Every participant of the gathering knows exactly who takes part. */
  ghost predicate ViewsExact(s: State, gid: nat) {
    gid in s.sessions ==>
      forall client :: client in s.sessions[gid].participants ==>
        View(s, gid, client) == SetOf(s.sessions[gid].participants)
  }

  ghost predicate Reproducible(s: State, gid: nat) {
    gid in s.sessions ==> s.sessions[gid].info.flags.notifyAllReproducibly
  }

  lemma {:induction false} ReplayConcat(view: set<PID>, a: seq<Event>, b: seq<Event>, gid: nat, client: PID)
    ensures Replay(view, a + b, gid, client) == Replay(Replay(view, a, gid, client), b, gid, client)
  {
    if b == [] {
      assert a + b == a;
    } else {
      ReplayConcat(view, a, Init(b), gid, client);
      assert Init(a + b) == a + Init(b);
    }
  }

  /** Events that are not for this client and this gathering change nothing. */
  lemma {:induction false} ReplayIgnores(view: set<PID>, events: seq<Event>, gid: nat, client: PID)
    requires forall e :: e in events && e.Participation? ==> e.gid != gid || client !in e.targets
    ensures Replay(view, events, gid, client) == view
  {
    if events == [] {
    } else {
      assert events == Init(events) + [Last(events)];
      ReplayIgnores(view, Init(events), gid, client);
    }
  }

  lemma ReplayOne(view: set<PID>, event: Event, gid: nat, client: PID)
    ensures Replay(view, [event], gid, client) == Receive(view, event, gid, client)
  {
    assert Init([event]) == [];
  }

  lemma {:induction false} ReplaysTargets(env: Env, gid: nat, pid: PID, known: seq<PID>, message: string, total: nat)
    ensures forall e :: e in Replays(env, gid, pid, known, message, total) ==>
              e.Participation? && e.gid == gid && e.targets == [pid]
  {
    if known == [] {
    } else {
      ReplaysTargets(env, gid, pid, Init(known), message, total);
    }
  }

  /** The newcomer is told about every player already there. */
  lemma {:induction false} ReplaysTeach(view: set<PID>, env: Env, gid: nat, pid: PID, known: seq<PID>, message: string,
                                        total: nat)
    requires env.endpoint && pid !in known
    ensures Replay(view, Replays(env, gid, pid, known, message, total), gid, pid) == view + SetOf(known)
  {
    if known == [] {
    } else {
      var before := Replays(env, gid, pid, Init(known), message, total);
      var event := Participation(pid, Participate, gid, Last(known), message, total, [pid]);
      assert known == Init(known) + [Last(known)];
      ReplaysTeach(view, env, gid, pid, Init(known), message, total);
      ReplayConcat(view, before, [event], gid, pid);
      ReplayOne(view + SetOf(Init(known)), event, gid, pid);
      assert SetOf(known) == SetOf(Init(known)) + {Last(known)};
    }
  }

  lemma JoinedMembers(g: Gathering, pid: PID, heads: UInt16)
    requires heads >= 1
    ensures SetOf(Joined(g, pid, heads).participants) == SetOf(g.participants) + {pid}
  {
    CopiesFacts(pid, heads);
  }

  /** What a join under the reproducible flag teaches one client that takes part afterwards. */
  lemma JoinTeaches(env: Env, g: Gathering, view: set<PID>, pid: PID, heads: UInt16, message: string, client: PID)
    requires env.endpoint && heads >= 1 && pid !in g.participants && g.info.flags.notifyAllReproducibly
    requires client == pid || (client in g.participants && view == SetOf(g.participants))
    ensures Replay(view, JoinEvents(env, g, pid, heads, message), g.info.id, client) == SetOf(g.participants) + {pid}
  {
    var after := Joined(g, pid, heads);
    var gid := g.info.id;
    JoinedMembers(g, pid, heads);
    DedupFacts(after.participants);
    DedupFacts(g.participants);
    assert client in SetOf(after.participants);
    var event := Participation(pid, Participate, gid, pid, message, after.HeadCount(), Dedup(after.participants));
    assert Announce(env, event) == [event];
    var known := Dedup(g.participants);
    var replays := Replays(env, gid, pid, known, message, after.HeadCount());
    ReplayConcat(view, [event], replays, gid, client);
    ReplayOne(view, event, gid, client);
    assert SetOf(known) == SetOf(g.participants);
    if client == pid {
      ReplaysTeach({pid}, env, gid, pid, known, message, after.HeadCount());
    } else {
      ReplaysTargets(env, gid, pid, known, message, after.HeadCount());
      ReplayIgnores(view + {pid}, replays, gid, client);
    }
  }

  /** Joining teaches nobody anything about other gatherings. */
  lemma JoinEventsStayInside(env: Env, g: Gathering, view: set<PID>, pid: PID, heads: UInt16, message: string, gid: nat,
                             client: PID)
    requires gid != g.info.id
    ensures Replay(view, JoinEvents(env, g, pid, heads, message), gid, client) == view
  {
    ReplaysTargets(env, g.info.id, pid, Dedup(g.participants), message, Joined(g, pid, heads).HeadCount());
    ReplayIgnores(view, JoinEvents(env, g, pid, heads, message), gid, client);
  }

  lemma JoinKeepsViews(env: Env, s: State, g: nat, pid: PID, heads: UInt16, message: string, gid: nat)
    requires env.endpoint && heads >= 1 && g in s.sessions && s.sessions[g].info.id == g
             && pid !in s.sessions[g].participants
    requires ViewsExact(s, gid)
    requires Reproducible(JoinLocked(env, s, g, pid, heads, message), gid)
    ensures ViewsExact(JoinLocked(env, s, g, pid, heads, message), gid)
  {
    var t := JoinLocked(env, s, g, pid, heads, message);
    if gid in t.sessions {
      JoinedMembers(s.sessions[g], pid, heads);
      forall client | client in t.sessions[gid].participants
        ensures View(t, gid, client) == SetOf(t.sessions[gid].participants)
      {
        ReplayConcat({}, s.log, JoinEvents(env, s.sessions[g], pid, heads, message), gid, client);
        hide Joined, JoinEvents, Replay, SetOf;
        if gid == g {
          ClientTookPart(s.sessions[g], pid, heads, client);
          JoinTeaches(env, s.sessions[g], View(s, gid, client), pid, heads, message, client);
        } else {
          JoinEventsStayInside(env, s.sessions[g], View(s, gid, client), pid, heads, message, gid, client);
        }
      }
    }
  }

  lemma ClientTookPart(g: Gathering, pid: PID, heads: UInt16, client: PID)
    requires client in Joined(g, pid, heads).participants
    ensures client in g.participants || client == pid
    ensures Joined(g, pid, heads).info.flags == g.info.flags
  {
    CopiesFacts<PID>(pid, heads);
    hide Copies;
  }

  lemma LeaveKeepsViews(env: Env, s: State, g: nat, pid: PID, kind: LeaveKind, message: string, gid: nat)
    requires env.endpoint
    requires g in s.sessions && s.sessions[g].info.id == g && ViewsExact(s, gid)
    ensures ViewsExact(LeaveLocked(env, s, g, pid, kind, message), gid)
  {
    hide Without, Dedup;
    var t := LeaveLocked(env, s, g, pid, kind, message);
    if gid in t.sessions && pid in s.sessions[g].participants {
      var before := s.sessions[g];
      var remaining := Without(before.participants, pid);
      WithoutFacts(before.participants, pid);
      DedupFacts(remaining);
      var event := Participation(pid, kind, g, pid, message, U32(|remaining|), Dedup(remaining));
      forall client | client in t.sessions[gid].participants
        ensures View(t, gid, client) == SetOf(t.sessions[gid].participants)
      {
        ReplayConcat({}, s.log, LeaveEvents(env, before, pid, kind, message), gid, client);
        if gid == g {
          assert LeaveEvents(env, before, pid, kind, message) == [event];
          ReplayOne(View(s, gid, client), event, gid, client);
          assert SetOf(remaining) == SetOf(before.participants) - {pid};
        } else {
          ReplayIgnores(View(s, gid, client), LeaveEvents(env, before, pid, kind, message), gid, client);
        }
      }
    }
  }

  lemma MoveKeepsViews(env: Env, s: State, move: Move, gid: nat)
    requires env.endpoint && Inv(s) && Legal(s, move) && ViewsExact(s, gid)
    requires move.Admit? || move.Open? ==> Reproducible(Apply(env, s, move), gid)
    ensures ViewsExact(Apply(env, s, move), gid)
  {
    match move
    case Leave(g, pid, kind, message) =>
      if g in s.sessions { LeaveKeepsViews(env, s, g, pid, kind, message, gid); }
    case Admit(g, pid, heads, message) => JoinKeepsViews(env, s, g, pid, heads, message, gid);
    case Open(request, pid, heads, message, key, now) =>
      var t := CreateLocked(s, request, pid, key, now);
      assert ViewsExact(t, gid);
      JoinKeepsViews(env, t, s.nextGatheringID, pid, heads, message, gid);
    case Send(event) =>
      if gid in s.sessions {
        forall client | client in s.sessions[gid].participants
          ensures View(Apply(env, s, move), gid, client) == View(s, gid, client)
        {
          ReplayConcat({}, s.log, [event], gid, client);
          ReplayOne(View(s, gid, client), event, gid, client);
        }
      }
    case _ =>
      assert Apply(env, s, move).log == s.log;
  }

  lemma {:induction false} LeavesKeepViews(env: Env, s: State, moves: seq<Move>, gid: nat)
    requires env.endpoint && Inv(s) && OnlyLeaves(moves) && ViewsExact(s, gid)
    ensures ViewsExact(ApplyAll(env, s, moves), gid)
  {
    if moves == [] {
    } else {
      LeavesKeepViews(env, s, Init(moves), gid);
      LeavesAreLegal(env, s, Init(moves));
      MovesKeepInv(env, s, Init(moves));
      MoveKeepsViews(env, ApplyAll(env, s, Init(moves)), Last(moves), gid);
    }
  }

  /** A handler's moves keep the views of a gathering that has the flag afterwards. */
  lemma MovesKeepViews(env: Env, s: State, moves: seq<Move>, gid: nat)
    requires env.endpoint && Inv(s) && AllLegal(env, s, moves) && Shaped(moves)
    requires ViewsExact(s, gid) && Reproducible(ApplyAll(env, s, moves), gid)
    ensures ViewsExact(ApplyAll(env, s, moves), gid)
  {
    if moves != [] {
      var before := Init(moves);
      MovesKeepInv(env, s, before);
      if OnlyLeaves(before) {
        LeavesKeepViews(env, s, before, gid);
      } else {
        assert before == [moves[0]] && Init(before) == [];
        MoveKeepsViews(env, s, moves[0], gid);
      }
      MoveKeepsViews(env, ApplyAll(env, s, before), Last(moves), gid);
    }
  }

  /** In every state of the run in which the gathering is live, it has the reproducible flag. */
  ghost predicate KeepsFlag(env: Env, calls: seq<Call>, gid: nat)
    requires Reachable(env, calls)
  {
    Reproducible(Final(env, calls), gid) && (calls != [] ==> KeepsFlag(env, Init(calls), gid))
  }

  /** In every run that keeps a gathering's flag, every participant's replayed view is exactly its participants. */
  lemma {:induction false} RunKeepsViews(env: Env, calls: seq<Call>, gid: nat)
    requires env.endpoint && Reachable(env, calls) && KeepsFlag(env, calls, gid)
    ensures ViewsExact(Final(env, calls), gid)
  {
    hide Handle;
    if calls == [] {
    } else {
      var s := Final(env, Init(calls));
      var pid, request := Last(calls).pid, Last(calls).request;
      RunKeepsViews(env, Init(calls), gid);
      RunKeepsInv(env, Init(calls));
      HandlersAreLegal(env, s, pid, request);
      HandlersAreShaped(env, s, pid, request);
      MovesKeepViews(env, s, Handle(env, s, pid, request).moves, gid);
    }
  }

  /** The weaker "all participants" flag is not enough: a newcomer then only ever hears of itself. */
  lemma NotifyAllAloneMisleads(env: Env, s: State, gid: nat, pid: PID, heads: UInt16, message: string)
    requires env.endpoint && Inv(s) && Legal(s, Admit(gid, pid, heads, message))
    requires s.sessions[gid].info.flags.notifyAll && !s.sessions[gid].info.flags.notifyAllReproducibly
    ensures View(Apply(env, s, Admit(gid, pid, heads, message)), gid, pid) == {pid}
    ensures !ViewsExact(Apply(env, s, Admit(gid, pid, heads, message)), gid)
  {
    var g := s.sessions[gid];
    var after := Joined(g, pid, heads);
    JoinedMembers(g, pid, heads);
    DedupFacts(after.participants);
    assert pid in SetOf(after.participants);
    var event := Participation(pid, Participate, gid, pid, message, after.HeadCount(), Dedup(after.participants));
    assert JoinEvents(env, g, pid, heads, message) == [event];
    ReplayConcat({}, s.log, [event], gid, pid);
    ReplayOne(View(s, gid, pid), event, gid, pid);
    assert g.participants[0] in SetOf(after.participants) && g.participants[0] != pid;
  }

  /** Where all participants are told of events, a join keeps the views exact exactly under the reproducible flag. */
  lemma JoinKeepsViewsExactly(env: Env, s: State, gid: nat, pid: PID, heads: UInt16, message: string)
    requires env.endpoint && Inv(s) && Legal(s, Admit(gid, pid, heads, message)) && ViewsExact(s, gid)
    requires s.sessions[gid].info.flags.notifyAll
    ensures ViewsExact(Apply(env, s, Admit(gid, pid, heads, message)), gid)
            <==> s.sessions[gid].info.flags.notifyAllReproducibly
  {
    if s.sessions[gid].info.flags.notifyAllReproducibly {
      MoveKeepsViews(env, s, Admit(gid, pid, heads, message), gid);
    } else {
      NotifyAllAloneMisleads(env, s, gid, pid, heads, message);
    }
  }

  const TELLING: MatchmakeSession := NEW_GATHERING.(flags := Flags(true, false, false))

  lemma TellingRecord()
    ensures var g := Joined(Opened(TELLING, 1, 1, 0, 0), 1, 1);
            && g.participants == [1] && g.info.openParticipation && g.info.flags == TELLING.flags
            && g.info.maximumParticipants == 0 && g.info.participationPolicy == 0
    ensures JoinError(Opened(TELLING, 1, 1, 0, 0), 1, 1).None?
  {
    assert Copies<PID>(1, 1) == [1];
  }

  lemma TellingOpens(env: Env)
    ensures var request := RegisterGathering(TELLING, true, 0, 0, []);
            && Possible(env, Gatherings.EMPTY, 1, request)
            && var s := Step(env, Gatherings.EMPTY, 1, request);
            1 in s.sessions && s.sessions[1].participants == [1] && s.sessions[1].info.openParticipation
            && s.sessions[1].info.flags == TELLING.flags && s.sessions[1].info.maximumParticipants == 0
            && s.sessions[1].info.participationPolicy == 0
  {
    var move := Open(TELLING, 1, 1, "", 0, 0);
    OneMove(env, Gatherings.EMPTY, move);
    assert SetOf<nat>([]) == {} && Departures([], 1, Disconnect) == [];
    TellingRecord();
    assert ApplyAll(env, Gatherings.EMPTY, []) == Gatherings.EMPTY;
    hide JoinEvents, Joined, Opened, JoinError, ApplyAll, Departures;
    assert Handle(env, Gatherings.EMPTY, 1, RegisterGathering(TELLING, true, 0, 0, [])).moves == [] + [move];
  }

  /** In a run of two calls, a player joins such a gathering and knows of itself only. */
  lemma NewcomersCanBeMisled(env: Env)
    requires env.endpoint
    ensures exists calls: seq<Call> :: Reachable(env, calls) && 1 in Final(env, calls).sessions
              && SetOf(Final(env, calls).sessions[1].participants) == {1, 2} && View(Final(env, calls), 1, 2) == {2}
  {
    var first := Call(1, RegisterGathering(TELLING, true, 0, 0, []));
    TellingOpens(env);
    OneMoreCall(env, [], first);
    assert [] + [first] == [first];
    var s := Final(env, [first]);
    RunKeepsInv(env, [first]);
    hide Inv, Final, Reachable, Step;
    NewcomerJoins(env, s);
    OneMoreCall(env, [first], Call(2, ParticipateIn(1, "")));
  }

  lemma NewcomerJoins(env: Env, s: State)
    requires env.endpoint && Inv(s) && 1 in s.sessions && s.sessions[1].participants == [1]
    requires s.sessions[1].info.openParticipation && s.sessions[1].info.participationPolicy == 0
    requires s.sessions[1].info.flags == TELLING.flags && s.sessions[1].info.maximumParticipants == 0
    ensures Possible(env, s, 2, ParticipateIn(1, ""))
    ensures var t := Step(env, s, 2, ParticipateIn(1, ""));
            1 in t.sessions && SetOf(t.sessions[1].participants) == {1, 2} && View(t, 1, 2) == {2}
  {
    var move := Admit(1, 2, 1, "");
    OneMove(env, s, move);
    assert Handle(env, s, 2, ParticipateIn(1, "")).moves == [move];
    NotifyAllAloneMisleads(env, s, 1, 2, 1, "");
    JoinedMembers(s.sessions[1], 2, 1);
    hide JoinEvents, View, ApplyAll;
  }
}
