/** What every run keeps: identity, roles and counts of gatherings, their IDs, and disconnect cleanup. */
module Invariants {
  import opened Common
  import opened Gatherings
  import opened Search
  import opened Handlers

  /** Stored under its own ID, not empty, owned and hosted from within, counted right. */
  ghost predicate Consistent(gid: nat, g: Gathering) {
    && g.info.id == gid
    && g.participants != []
    && g.info.ownerPID in g.participants
    && g.info.hostPID in g.participants
    && g.info.participationCount == g.HeadCount()
  }

  ghost predicate Inv(s: State) {
    forall gid :: gid in s.sessions ==> Consistent(gid, s.sessions[gid])
  }

  ghost predicate OwnIDs(s: State) {
    forall gid :: gid in s.sessions ==> s.sessions[gid].info.id == gid
  }

  /** When a move may be made. Every handler only makes legal moves, as HandlersAreLegal shows. */
  ghost predicate Legal(s: State, move: Move) {
    match move
    case Admit(gid, pid, heads, message) =>
      gid in s.sessions && pid !in s.sessions[gid].participants && heads >= 1 && !Full(s.sessions[gid], heads)
    case Open(request, pid, heads, message, key, now) =>
      heads >= 1 && (request.maximumParticipants == 0 || heads <= request.maximumParticipants)
    case Revise(gid, info, url) =>
      && gid in s.sessions
      && Consistent(gid, s.sessions[gid].(info := info))
      && info.sessionKey == s.sessions[gid].info.sessionKey
      && info.startedTime == s.sessions[gid].info.startedTime
    case Send(event) => !event.Participation?
    case _ => true
  }

  ghost predicate AllLegal(env: Env, s: State, moves: seq<Move>) {
    moves == [] || (AllLegal(env, s, Init(moves)) && Legal(ApplyAll(env, s, Init(moves)), Last(moves)))
  }

  // ---- Lists of participants --------------------------------------------------------------------

  lemma {:induction false} WithoutFacts(participants: seq<PID>, pid: PID)
    ensures forall p :: p in Without(participants, pid) <==> p in participants && p != pid
    ensures |Without(participants, pid)| == |participants| - Count(participants, pid)
    ensures pid !in participants ==> Without(participants, pid) == participants
  {
    if participants == [] {
    } else {
      WithoutFacts(Init(participants), pid);
      assert participants == Init(participants) + [Last(participants)];
    }
  }

  lemma {:induction false} WithoutConcat(a: seq<PID>, b: seq<PID>, pid: PID)
    ensures Without(a + b, pid) == Without(a, pid) + Without(b, pid)
  {
    if b == [] {
      assert a + b == a;
    } else {
      WithoutConcat(a, Init(b), pid);
      assert Init(a + b) == a + Init(b);
    }
  }

  lemma {:induction false} LookupFacts(sessions: map<nat, Gathering>, order: seq<nat>)
    ensures forall g :: g in Lookup(sessions, order) <==>
              exists gid :: gid in order && gid in sessions && sessions[gid] == g
  {
    if order == [] {
    } else {
      LookupFacts(sessions, Init(order));
      assert order == Init(order) + [Last(order)];
      forall g | g in Lookup(sessions, order)
        ensures exists gid :: gid in order && gid in sessions && sessions[gid] == g
      {
        if g in Lookup(sessions, Init(order)) {
          var gid :| gid in Init(order) && gid in sessions && sessions[gid] == g;
          assert gid in order;
        } else {
          assert Last(order) in order;
        }
      }
    }
  }

  lemma LookupComplete(sessions: map<nat, Gathering>, listing: seq<nat>, gid: nat)
    requires Enumerates(listing, sessions.Keys) && gid in sessions
    ensures sessions[gid] in Lookup(sessions, listing)
  {
    assert gid in SetOf(listing);
    LookupFacts(sessions, listing);
  }

  // ---- The invariant ----------------------------------------------------------------------------

  lemma MoveKeepsInv(env: Env, s: State, move: Move)
    requires Inv(s) && Legal(s, move)
    ensures Inv(Apply(env, s, move))
  {
    hide LeaveEvents, JoinEvents, U32, Full;
    match move
    case Leave(gid, pid, kind, message) =>
      if gid in s.sessions { WithoutFacts(s.sessions[gid].participants, pid); }
    case Admit(gid, pid, heads, message) =>
    case Open(request, pid, heads, message, key, now) => CopiesFacts(pid, heads);
    case _ =>
  }

  lemma {:induction false} MovesKeepInv(env: Env, s: State, moves: seq<Move>)
    requires Inv(s) && AllLegal(env, s, moves)
    ensures Inv(ApplyAll(env, s, moves))
  {
    if moves == [] {
    } else {
      MovesKeepInv(env, s, Init(moves));
      MoveKeepsInv(env, ApplyAll(env, s, Init(moves)), Last(moves));
    }
  }

  lemma AllLegalSnoc(env: Env, s: State, moves: seq<Move>, move: Move)
    requires AllLegal(env, s, moves) && Legal(ApplyAll(env, s, moves), move)
    ensures AllLegal(env, s, moves + [move])
  {
    assert Init(moves + [move]) == moves;
  }

  ghost predicate OnlyLeaves(moves: seq<Move>) {
    forall i :: 0 <= i < |moves| ==> moves[i].Leave?
  }

  lemma {:induction false} DeparturesAreLeaves(order: seq<nat>, pid: PID, kind: LeaveKind)
    ensures OnlyLeaves(Departures(order, pid, kind))
  {
    if order == [] {
    } else {
      DeparturesAreLeaves(Init(order), pid, kind);
    }
  }

  lemma {:induction false} LeavesAreLegal(env: Env, s: State, moves: seq<Move>)
    requires OnlyLeaves(moves)
    ensures AllLegal(env, s, moves)
    ensures ApplyAll(env, s, moves).nextGatheringID == s.nextGatheringID
  {
    if moves == [] {
    } else {
      LeavesAreLegal(env, s, Init(moves));
    }
  }

  /** g passes the filters of some well-formed criteria, as automatic matchmaking restricts them. */
  ghost predicate PassesSome(env: Env, pid: PID, criterias: seq<Criteria>, g: Gathering) {
    var options := AutoOptions(env, pid);
    exists i :: 0 <= i < |criterias| && WellFormed(Restrict(criterias[i], options))
                && Passes(env, pid, Restrict(criterias[i], options), options, g)
  }

  /** A gathering that automatic matchmaking settles on is live, and stored under its own ID. */
  lemma ChoiceIsLive(env: Env, t: State, pid: PID, criterias: seq<Criteria>, session: MatchmakeSession,
                     listings: seq<seq<nat>>)
    requires OwnIDs(t) && |listings| == if criterias == [] then 1 else |criterias|
    ensures var choice := Choose(env, t, pid, criterias, session, listings);
            choice.Some? ==>
              && choice.value.info.id in t.sessions && t.sessions[choice.value.info.id] == choice.value
              && CanJoin(env, pid, choice.value.info).None?
              && (criterias == [] ==> Equivalent(env, pid, session, choice.value))
              && (criterias != [] ==> PassesSome(env, pid, criterias, choice.value))
  {
    var choice := Choose(env, t, pid, criterias, session, listings);
    if choice.Some? {
      var g := choice.value;
      if criterias == [] {
        FindSessionOptimal(env, pid, session, Lookup(t.sessions, listings[0]));
        LookupFacts(t.sessions, listings[0]);
      } else {
        var alls := Listings(t, listings);
        var options := AutoOptions(env, pid);
        var found := SearchResult(env, pid, criterias, ResultRange(0, 1), Some(session), options, alls);
        FirstJoinableFacts(env, pid, found);
        HitsMembers(env, pid, criterias, ResultRange(0, 1), Some(session), options, alls, g);
        var i :| 0 <= i < |criterias| && WellFormed(Restrict(criterias[i], options)) && g in alls[i]
                 && Passes(env, pid, Restrict(criterias[i], options), options, g);
        LookupFacts(t.sessions, listings[i]);
      }
    }
  }

  lemma {:induction false} FirstJoinableFacts(env: Env, pid: PID, gs: seq<Gathering>)
    ensures FirstJoinable(env, pid, gs).Some? ==>
              FirstJoinable(env, pid, gs).value in gs && CanJoin(env, pid, FirstJoinable(env, pid, gs).value.info).None?
    ensures FirstJoinable(env, pid, gs).None? ==> forall g :: g in gs ==> CanJoin(env, pid, g.info).Some?
  {
    if gs == [] {
    } else {
      FirstJoinableFacts(env, pid, gs[1..]);
    }
  }

  lemma OneLegal(env: Env, s: State, move: Move)
    requires Legal(s, move)
    ensures AllLegal(env, s, [move])
    ensures ApplyAll(env, s, [move]) == Apply(env, s, move)
  {
    assert Init([move]) == [];
  }

  lemma TwoLegal(env: Env, s: State, first: Move, second: Move)
    requires Legal(s, first) && Legal(Apply(env, s, first), second)
    ensures AllLegal(env, s, [first, second])
  {
    OneLegal(env, s, first);
    assert Init([first, second]) == [first];
  }

  lemma CreateIsLegal(env: Env, s: State, departures: seq<Move>, pid: PID, session: MatchmakeSession, count: UInt16,
                      message: string, key: nat, now: nat)
    requires OnlyLeaves(departures)
    ensures AllLegal(env, s,
                     CreateEffect(env, ApplyAll(env, s, departures), departures, pid, session, count, message, key,
                                  now).moves)
  {
    LeavesAreLegal(env, s, departures);
    var effect := CreateEffect(env, ApplyAll(env, s, departures), departures, pid, session, count, message, key, now);
    AllLegalSnoc(env, s, departures, Last(effect.moves));
  }

  lemma AutoMatchmakeIsLegal(env: Env, s: State, pid: PID, criterias: seq<Criteria>, session: MatchmakeSession,
                             valid: bool,
                             message: string, key: nat, now: nat, order: seq<nat>, listings: seq<seq<nat>>)
    requires Inv(s) && |listings| == if criterias == [] then 1 else |criterias|
    ensures AllLegal(env, s,
                     AutoMatchmakeEffect(env, s, pid, criterias, session, valid, message, key, now, order,
                                         listings).moves)
  {
    var departures := Departures(order, pid, Disconnect);
    DeparturesAreLeaves(order, pid, Disconnect);
    LeavesAreLegal(env, s, departures);
    MovesKeepInv(env, s, departures);
    var t := ApplyAll(env, s, departures);
    ChoiceIsLive(env, t, pid, criterias, session, listings);
    var choice := Choose(env, t, pid, criterias, session, listings);
    if choice.None? {
      CreateIsLegal(env, s, departures, pid, session, 1, message, key, now);
    } else if JoinError(choice.value, pid, 1).None? {
      AllLegalSnoc(env, s, departures, Admit(choice.value.info.id, pid, 1, message));
    }
  }

  lemma JoinIsLegal(env: Env, s: State, pid: PID, gid: nat, count: UInt16, message: string, checkPasswords: bool)
    requires Inv(s)
    ensures AllLegal(env, s, JoinEffect(env, s, pid, gid, count, message, checkPasswords).moves)
  {
    var moves := JoinEffect(env, s, pid, gid, count, message, checkPasswords).moves;
    if moves != [] { OneLegal(env, s, Admit(gid, pid, Heads(count), message)); }
  }

  lemma UpdatesAreLegal(env: Env, s: State, pid: PID, session: MatchmakeSession, valid: bool)
    requires Inv(s)
    ensures AllLegal(env, s, UpdateEffect(s, pid, session, valid).moves)
  {
    var moves := UpdateEffect(s, pid, session, valid).moves;
    if moves != [] { OneLegal(env, s, moves[0]); }
  }

  lemma MutationsAreLegal(env: Env, s: State, pid: PID, gid: nat, mutation: Mutation)
    requires Inv(s)
    ensures AllLegal(env, s, MutateEffect(s, pid, gid, mutation).moves)
  {
    var moves := MutateEffect(s, pid, gid, mutation).moves;
    if moves != [] { OneLegal(env, s, moves[0]); }
  }

  lemma UnregisteringIsLegal(env: Env, s: State, pid: PID, gid: nat)
    ensures AllLegal(env, s, UnregisterEffect(s, pid, gid).moves)
  {
    var moves := UnregisterEffect(s, pid, gid).moves;
    if moves != [] { TwoLegal(env, s, moves[0], moves[1]); }
  }

  lemma MigrationIsLegal(env: Env, s: State, pid: PID, gid: nat, candidates: seq<PID>)
    requires Inv(s)
    ensures AllLegal(env, s, MigrateEffect(s, pid, gid, candidates).moves)
  {
    var moves := MigrateEffect(s, pid, gid, candidates).moves;
    if moves != [] {
      FirstParticipantFacts(candidates, s.sessions[gid].participants);
      TwoLegal(env, s, moves[0], moves[1]);
    }
  }

  lemma HostingIsLegal(env: Env, s: State, pid: PID, gid: nat, url: Option<string>)
    requires Inv(s)
    ensures AllLegal(env, s, HostEffect(s, pid, gid, url).moves)
  {
    var moves := HostEffect(s, pid, gid, url).moves;
    if moves != [] { OneLegal(env, s, moves[0]); }
  }

  lemma HostUpdatesAreLegal(env: Env, s: State, pid: PID, gid: nat, migrateOwner: bool)
    requires Inv(s)
    ensures AllLegal(env, s, UpdateSessionHostEffect(s, pid, gid, migrateOwner).moves)
  {
    var moves := UpdateSessionHostEffect(s, pid, gid, migrateOwner).moves;
    if !migrateOwner {
      HostingIsLegal(env, s, pid, gid, None);
    } else if moves != [] {
      TwoLegal(env, s, moves[0], moves[1]);
    }
  }

  /** Every move a handler makes is legal where it makes it. */
  lemma HandlersAreLegal(env: Env, s: State, pid: PID, request: Request)
    requires Inv(s) && Possible(env, s, pid, request)
    ensures AllLegal(env, s, Handle(env, s, pid, request).moves)
  {
    assert AllLegal(env, s, []);
    hide AllLegal, Inv, ApplyAll, Departures, CreateEffect, AutoMatchmakeEffect, JoinEffect, UnregisterEffect;
    hide UpdateEffect, MutateEffect, MigrateEffect, HostEffect, UpdateSessionHostEffect;
    match request
    case CreateMatchmakeSession(session, fits, count, message, key, now, order) =>
      DeparturesAreLeaves(order, pid, Disconnect);
      CreateIsLegal(env, s, Departures(order, pid, Disconnect), pid, session, count, message, key, now);
    case RegisterGathering(session, fits, key, now, order) =>
      DeparturesAreLeaves(order, pid, Disconnect);
      CreateIsLegal(env, s, Departures(order, pid, Disconnect), pid, session, 1, "", key, now);
    case JoinMatchmakeSession(gid, count, message) => JoinIsLegal(env, s, pid, gid, count, message, true);
    case ParticipateIn(gid, message) => JoinIsLegal(env, s, pid, gid, 1, message, false);
    case AutoMatchmake(criterias, session, fits, message, key, now, order, listings) =>
      AutoMatchmakeIsLegal(env, s, pid, criterias, session, ValidSession(session, fits), message, key, now, order,
                           listings);
    case LeaveGathering(gid, kind, message) => OneLegal(env, s, Leave(gid, pid, kind, message));
    case ConnectionEnded(order) =>
      DeparturesAreLeaves(order, pid, Disconnect);
      LeavesAreLegal(env, s, Departures(order, pid, Disconnect));
    case UnregisterGathering(gid) => UnregisteringIsLegal(env, s, pid, gid);
    case UpdateSession(session, checked, fits) => UpdatesAreLegal(env, s, pid, session, request.SettingsAllowed());
    case Mutate(gid, mutation) => MutationsAreLegal(env, s, pid, gid, mutation);
    case MigrateGatheringOwnership(gid, candidates) => MigrationIsLegal(env, s, pid, gid, candidates);
    case LaunchSession(gid, url) => HostingIsLegal(env, s, pid, gid, Some(url));
    case UpdateSessionURL(gid, url) => HostingIsLegal(env, s, pid, gid, if url != "" then Some(url) else None);
    case UpdateSessionHost(gid, migrateOwner) => HostUpdatesAreLegal(env, s, pid, gid, migrateOwner);
  }

  lemma {:induction false} FirstParticipantFacts(candidates: seq<PID>, participants: seq<PID>)
    ensures var p := FirstParticipant(candidates, participants);
            p != 0 ==> p in candidates && p in participants
    ensures FirstParticipant(candidates, participants) == 0 ==>
              0 in participants || forall p :: p in candidates ==> p !in participants
  {
    if candidates == [] {
    } else {
      FirstParticipantFacts(candidates[1..], participants);
    }
  }

  lemma StepKeepsInv(env: Env, s: State, pid: PID, request: Request)
    requires Inv(s) && Possible(env, s, pid, request)
    ensures Inv(Step(env, s, pid, request))
  {
    HandlersAreLegal(env, s, pid, request);
    MovesKeepInv(env, s, Handle(env, s, pid, request).moves);
  }

  /** In every run, every live gathering is consistent. */
  lemma {:induction false} RunKeepsInv(env: Env, calls: seq<Call>)
    requires Reachable(env, calls)
    ensures Inv(Final(env, calls))
  {
    if calls == [] {
    } else {
      RunKeepsInv(env, Init(calls));
      StepKeepsInv(env, Final(env, Init(calls)), Last(calls).pid, Last(calls).request);
    }
  }
}
