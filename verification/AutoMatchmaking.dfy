/** Automatic matchmaking end to end: when it creates, when it joins, and that it leaves its caller in one gathering. */
module AutoMatchmaking {
  import opened Common
  import opened Gatherings
  import opened Search
  import opened Handlers
  import opened Invariants
  import opened Runs
  import opened HeadCounts

  /** A well-formed automatic matchmaking request of pid in state s. */
  ghost predicate Accepted(env: Env, s: State, pid: PID, request: Request) {
    && Inv(s) && request.AutoMatchmake? && Possible(env, s, pid, request)
    && ValidSession(request.session, request.fits) && |request.message| <= MAX_MESSAGE_LENGTH
  }

  /** The store once the caller has left every gathering. */
  ghost function Cleared(env: Env, s: State, pid: PID, request: Request): State
    requires Accepted(env, s, pid, request)
  {
    ApplyAll(env, s, Departures(request.order, pid, Disconnect))
  }

  ghost function Choice(env: Env, s: State, pid: PID, request: Request): Option<Gathering>
    requires Accepted(env, s, pid, request)
  {
    Choose(env, Cleared(env, s, pid, request), pid, request.criterias, request.session, request.listings)
  }

  lemma ClearedFacts(env: Env, s: State, pid: PID, request: Request)
    requires Accepted(env, s, pid, request)
    ensures var t := Cleared(env, s, pid, request);
            Inv(t) && t.sessions == Scrubbed(s.sessions, pid) && t.nextGatheringID == s.nextGatheringID
    ensures forall gid :: gid in Cleared(env, s, pid, request).sessions ==>
              var g := Cleared(env, s, pid, request).sessions[gid];
              pid !in g.participants && g.info.ownerPID != pid
    ensures forall gid :: gid in s.sessions && pid !in s.sessions[gid].participants ==>
              gid in Cleared(env, s, pid, request).sessions
                && Cleared(env, s, pid, request).sessions[gid] == s.sessions[gid]
  {
    var departures := Departures(request.order, pid, Disconnect);
    DeparturesAreLeaves(request.order, pid, Disconnect);
    LeavesAreLegal(env, s, departures);
    MovesKeepInv(env, s, departures);
    DisconnectClosedForm(env, s, request.order, pid, Disconnect);
    DisconnectForgets(s, pid);
  }

  // ---- Creating or joining ----------------------------------------------------------------------

  lemma EquivalentCanJoin(env: Env, pid: PID, wanted: MatchmakeSession, g: Gathering)
    requires Equivalent(env, pid, wanted, g)
    ensures CanJoin(env, pid, g.info).None?
    ensures !Full(g, 1)
  {
  }

  lemma PassingCanJoin(env: Env, pid: PID, criteria: Criteria, g: Gathering)
    requires Passes(env, pid, Restrict(criteria, AutoOptions(env, pid)), AutoOptions(env, pid), g)
    ensures CanJoin(env, pid, g.info).None?
  {
  }

  /** What a gathering must be for this request to take it. */
  ghost predicate Suitable(env: Env, pid: PID, request: Request, g: Gathering)
    requires request.AutoMatchmake?
  {
    if request.criterias == [] then Equivalent(env, pid, request.session, g)
    else PassesSome(env, pid, request.criterias, g)
  }

  lemma SearchHeadJoinable(env: Env, t: State, pid: PID, criterias: seq<Criteria>, session: MatchmakeSession,
                           listings: seq<seq<nat>>)
    requires |listings| == |criterias| && criterias != []
    ensures Choose(env, t, pid, criterias, session, listings).None? <==>
            !env.allowPublic
            || AllHits(env, pid, criterias, ResultRange(0, 1), Some(session), AutoOptions(env, pid),
                       Listings(t, listings)) == []
  {
    var options := AutoOptions(env, pid);
    var hits := AllHits(env, pid, criterias, ResultRange(0, 1), Some(session), options, Listings(t, listings));
    var found := SearchResult(env, pid, criterias, ResultRange(0, 1), Some(session), options, Listings(t, listings));
    if env.allowPublic && hits != [] {
      assert found == TakeUpTo(hits, 1) && found[0] == hits[0];
      HitsMembers(env, pid, criterias, ResultRange(0, 1), Some(session), options, Listings(t, listings), hits[0]);
      var i :| 0 <= i < |criterias| && Passes(env, pid, Restrict(criterias[i], options), options, hits[0]);
      PassingCanJoin(env, pid, criterias[i], hits[0]);
    }
  }

  /** A new gathering is created exactly when discovery is off or no surviving gathering is suitable. */
  lemma CreatesExactlyWithoutMatch(env: Env, s: State, pid: PID, request: Request)
    requires Accepted(env, s, pid, request)
    ensures Choice(env, s, pid, request).None? <==>
            !env.allowPublic || forall gid :: gid in Cleared(env, s, pid, request).sessions ==>
                                  !Suitable(env, pid, request, Cleared(env, s, pid, request).sessions[gid])
  {
    hide Equivalent, Passes;
    var t := Cleared(env, s, pid, request);
    ClearedFacts(env, s, pid, request);
    ChoiceIsLive(env, t, pid, request.criterias, request.session, request.listings);
    if env.allowPublic && Choice(env, s, pid, request).None? {
      forall gid | gid in t.sessions ensures !Suitable(env, pid, request, t.sessions[gid]) {
        if Suitable(env, pid, request, t.sessions[gid]) { SuitableIsFound(env, s, pid, request, gid); }
      }
    }
    if !env.allowPublic { DiscoveryOff(env, t, pid, request); }
  }

  lemma DiscoveryOff(env: Env, t: State, pid: PID, request: Request)
    requires !env.allowPublic && request.AutoMatchmake?
    requires |request.listings| == if request.criterias == [] then 1 else |request.criterias|
    ensures Choose(env, t, pid, request.criterias, request.session, request.listings).None?
  {
  }

  lemma SuitableIsFound(env: Env, s: State, pid: PID, request: Request, gid: nat)
    requires Accepted(env, s, pid, request) && env.allowPublic && gid in Cleared(env, s, pid, request).sessions
    requires Suitable(env, pid, request, Cleared(env, s, pid, request).sessions[gid])
    ensures Choice(env, s, pid, request).Some?
  {
    var t := Cleared(env, s, pid, request);
    var g := t.sessions[gid];
    if request.criterias == [] {
      var all := Lookup(t.sessions, request.listings[0]);
      LookupComplete(t.sessions, request.listings[0], gid);
      FindSessionOptimal(env, pid, request.session, all);
      EquivalentCanJoin(env, pid, request.session, FindSession(env, pid, request.session, all).value);
    } else {
      var options := AutoOptions(env, pid);
      var i :| 0 <= i < |request.criterias| && WellFormed(Restrict(request.criterias[i], options))
               && Passes(env, pid, Restrict(request.criterias[i], options), options, g);
      LookupComplete(t.sessions, request.listings[i], gid);
      HitsComplete(env, pid, request.criterias, ResultRange(0, 1), Some(request.session), options,
                   Listings(t, request.listings), i, g);
      SearchHeadJoinable(env, t, pid, request.criterias, request.session, request.listings);
    }
  }

  /** Skipping the caller's own gatherings changes nothing once the caller has left them all. */
  lemma ExcludingOwnerIsRedundant(env: Env, s: State, pid: PID, request: Request, gid: nat, criteria: Criteria)
    requires Accepted(env, s, pid, request) && gid in Cleared(env, s, pid, request).sessions
    ensures var g := Cleared(env, s, pid, request).sessions[gid];
            Passes(env, pid, criteria, AutoOptions(env, pid), g)
            <==> Passes(env, pid, criteria, AutoOptions(env, pid).(excludeOwnerPID := 0), g)
  {
    ClearedFacts(env, s, pid, request);
  }

  // ---- The final join ---------------------------------------------------------------------------

  /** One more player does not fit the gathering, as JoinLocked counts. */
  predicate NoRoomForOne(g: Gathering) {
    g.info.maximumParticipants != 0 && U32(g.HeadCount() + 1) > g.info.maximumParticipants
  }

  lemma AutoReply(env: Env, s: State, pid: PID, request: Request)
    requires Accepted(env, s, pid, request)
    ensures var effect := Handle(env, s, pid, request);
            var choice := Choice(env, s, pid, request);
            var departures := Departures(request.order, pid, Disconnect);
            if choice.Some? then
              if NoRoomForOne(choice.value)
              then effect == Effect(departures, Failed(SessionFull))
              else effect == Effect(departures + [Admit(choice.value.info.id, pid, 1, request.message)],
                                    Session(Joined(choice.value, pid, 1).info))
            else
              var created := Opened(request.session, s.nextGatheringID, pid, request.key, request.now);
              effect == Effect(departures + [Open(request.session, pid, 1, request.message, request.key, request.now)],
                               Session(Joined(created, pid, 1).info))
  {
    hide Choose, ApplyAll, Opened, Joined, Scrubbed, Departures, Enumerates, Equivalent, PassesSome, CanJoin;
    var t := Cleared(env, s, pid, request);
    ClearedFacts(env, s, pid, request);
    assert OwnIDs(t);
    hide Inv, Consistent, OwnIDs;
    OpenedHasRoom(request.session, t.nextGatheringID, pid, request.key, request.now);
    assert Handle(env, s, pid, request)
        == AutoMatchmakeEffect(env, s, pid, request.criterias, request.session, true, request.message,
                               request.key, request.now, request.order, request.listings);
    hide Handle;
    ChoiceIsLive(env, t, pid, request.criterias, request.session, request.listings);
  }

  lemma OpenedHasRoom(session: MatchmakeSession, gid: nat, pid: PID, key: nat, now: nat)
    ensures JoinError(Opened(session, gid, pid, key, now), pid, 1).None?
  {
  }

  /** Automatic matchmaking fails exactly when the gathering it chose has no room for one more. */
  lemma AutoFailsExactly(env: Env, s: State, pid: PID, request: Request)
    requires Accepted(env, s, pid, request)
    ensures Handle(env, s, pid, request).reply.Failed? <==>
            Choice(env, s, pid, request).Some? && NoRoomForOne(Choice(env, s, pid, request).value)
    ensures Handle(env, s, pid, request).reply.Failed? ==> request.criterias != []
  {
    hide Handle, Choose;
    AutoReply(env, s, pid, request);
    var t := Cleared(env, s, pid, request);
    ClearedFacts(env, s, pid, request);
    ChoiceIsLive(env, t, pid, request.criterias, request.session, request.listings);
    var choice := Choice(env, s, pid, request);
    if choice.Some? && request.criterias == [] { EquivalentCanJoin(env, pid, request.session, choice.value); }
  }

  lemma RoomyPassing(env: Env, pid: PID, criteria: Criteria, g: Gathering)
    requires Passes(env, pid, Restrict(criteria, AutoOptions(env, pid)), AutoOptions(env, pid), g)
    requires g.info.maximumParticipants != 0 ==> |g.participants| + TWO16 <= TWO32
    ensures !NoRoomForOne(g)
  {
    if g.info.maximumParticipants != 0 {
      FullMeansFull(g, Heads(criteria.vacantParticipants));
      FullMeansFull(g, 1);
    }
  }

  /** While head counts stay clear of the 32-bit wrap, automatic matchmaking cannot fail. */
  lemma AutoIsTotal(env: Env, s: State, pid: PID, request: Request)
    requires Accepted(env, s, pid, request) && forall gid :: gid in s.sessions ==> Roomy(s, gid)
    ensures Handle(env, s, pid, request).reply.Session?
  {
    hide Handle, Choose, Passes, Equivalent, Joined, Opened, Scrubbed, Departures, Enumerates, CanJoin;
    var t := Cleared(env, s, pid, request);
    AutoReply(env, s, pid, request);
    ClearedFacts(env, s, pid, request);
    assert OwnIDs(t);
    hide Inv, Consistent, OwnIDs, NoRoomForOne;
    AutoFailsExactly(env, s, pid, request);
    ChoiceIsLive(env, t, pid, request.criterias, request.session, request.listings);
    var choice := Choice(env, s, pid, request);
    if choice.Some? && request.criterias != [] {
      var g := choice.value;
      var departures := Departures(request.order, pid, Disconnect);
      DeparturesAreLeaves(request.order, pid, Disconnect);
      LeavesShrink(env, s, departures, g.info.id);
      var i :| 0 <= i < |request.criterias|
               && Passes(env, pid, Restrict(request.criterias[i], AutoOptions(env, pid)), AutoOptions(env, pid), g);
      RoomyPassing(env, pid, request.criterias[i], g);
    }
  }

  /** In every run in which no owner cuts a live gathering's limit below its heads, automatic matchmaking is total. */
  lemma RunAutoIsTotal(env: Env, calls: seq<Call>, pid: PID, request: Request)
    requires Reachable(env, calls) && forall gid :: gid in Final(env, calls).sessions ==> LimitsFit(env, calls, gid)
    requires Accepted(env, Final(env, calls), pid, request)
    ensures Handle(env, Final(env, calls), pid, request).reply.Session?
  {
    hide Handle, Step, Possible;
    var s := Final(env, calls);
    forall gid | gid in s.sessions ensures Roomy(s, gid) {
      RunStaysWithinLimits(env, calls, gid);
    }
    AutoIsTotal(env, s, pid, request);
  }

  // ---- The outcome ------------------------------------------------------------------------------

  /** pid takes part in gathering gid with one head, and in no other gathering. */
  ghost predicate InExactly(s: State, pid: PID, gid: nat) {
    && gid in s.sessions && Count(s.sessions[gid].participants, pid) == 1
    && forall other :: other in s.sessions && other != gid ==> pid !in s.sessions[other].participants
  }

  lemma JoinedOnce(g: Gathering, pid: PID)
    requires pid !in g.participants
    ensures Count(Joined(g, pid, 1).participants, pid) == 1
  {
    CountConcat(g.participants, Copies(pid, 1), pid);
    CopiesCount(pid, 1, pid);
    CountPositive(g.participants, pid);
  }

  lemma JoinLeavesInOne(env: Env, t: State, gid: nat, pid: PID, message: string)
    requires gid in t.sessions && forall g :: g in t.sessions ==> pid !in t.sessions[g].participants
    ensures var u := JoinLocked(env, t, gid, pid, 1, message);
            && InExactly(u, pid, gid) && u.sessions[gid] == Joined(t.sessions[gid], pid, 1)
            && forall g :: g in t.sessions && g != gid ==> g in u.sessions && u.sessions[g] == t.sessions[g]
  {
    hide JoinEvents, Joined;
    JoinedOnce(t.sessions[gid], pid);
  }

  /** Afterwards the caller is in the gathering it was told about, once, and nowhere else;
      strangers' gatherings are untouched. */
  lemma AutoLeavesCallerInOne(env: Env, s: State, pid: PID, request: Request)
    requires Accepted(env, s, pid, request) && Handle(env, s, pid, request).reply.Session?
    ensures var t := Step(env, s, pid, request);
            var info := Handle(env, s, pid, request).reply.info;
            && InExactly(t, pid, info.id) && t.sessions[info.id].info == info
            && forall gid :: gid in s.sessions && pid !in s.sessions[gid].participants && gid != info.id ==>
                 gid in t.sessions && t.sessions[gid] == s.sessions[gid]
  {
    hide Handle, Choose, JoinLocked, Joined, Opened, InExactly, Scrubbed, Departures, Enumerates, Equivalent;
    hide PassesSome;
    AutoReply(env, s, pid, request);
    hide NoRoomForOne, CanJoin;
    if Choice(env, s, pid, request).Some? {
      JoiningLeavesInOne(env, s, pid, request);
    } else {
      CreatingLeavesInOne(env, s, pid, request);
    }
  }

  lemma JoiningLeavesInOne(env: Env, s: State, pid: PID, request: Request)
    requires Accepted(env, s, pid, request) && Choice(env, s, pid, request).Some?
    ensures var g := Choice(env, s, pid, request).value;
            var moves := Departures(request.order, pid, Disconnect) + [Admit(g.info.id, pid, 1, request.message)];
            var t, info := ApplyAll(env, s, moves), Joined(g, pid, 1).info;
            && InExactly(t, pid, info.id) && t.sessions[info.id].info == info
            && forall gid :: gid in s.sessions && pid !in s.sessions[gid].participants && gid != info.id ==>
                 gid in t.sessions && t.sessions[gid] == s.sessions[gid]
  {
    hide Choose, JoinLocked, Joined, InExactly, Scrubbed, Departures, Enumerates, Equivalent, PassesSome, CanJoin;
    var cleared := Cleared(env, s, pid, request);
    var g := Choice(env, s, pid, request).value;
    ClearedFacts(env, s, pid, request);
    assert OwnIDs(cleared);
    hide Inv, Consistent, OwnIDs;
    ChoiceIsLive(env, cleared, pid, request.criterias, request.session, request.listings);
    ApplyAllSnoc(env, s, Departures(request.order, pid, Disconnect), Admit(g.info.id, pid, 1, request.message));
    hide ApplyAll;
    JoinLeavesInOne(env, cleared, g.info.id, pid, request.message);
    JoinedKeepsID(g, pid);
  }

  lemma CreatingLeavesInOne(env: Env, s: State, pid: PID, request: Request)
    requires Accepted(env, s, pid, request)
    ensures var created := Opened(request.session, s.nextGatheringID, pid, request.key, request.now);
            var move := Open(request.session, pid, 1, request.message, request.key, request.now);
            var t := ApplyAll(env, s, Departures(request.order, pid, Disconnect) + [move]);
            var info := Joined(created, pid, 1).info;
            && InExactly(t, pid, info.id) && t.sessions[info.id].info == info
            && forall gid :: gid in s.sessions && pid !in s.sessions[gid].participants && gid != info.id ==>
                 gid in t.sessions && t.sessions[gid] == s.sessions[gid]
  {
    hide JoinLocked, Joined, Opened, InExactly, Scrubbed, Departures, Enumerates;
    var cleared := Cleared(env, s, pid, request);
    ClearedFacts(env, s, pid, request);
    hide Inv, Consistent;
    var store := CreateLocked(cleared, request.session, pid, request.key, request.now);
    ApplyAllSnoc(env, s, Departures(request.order, pid, Disconnect),
                 Open(request.session, pid, 1, request.message, request.key, request.now));
    hide ApplyAll;
    OpenedFacts(request.session, s.nextGatheringID, pid, request.key, request.now);
    JoinLeavesInOne(env, store, s.nextGatheringID, pid, request.message);
    JoinedKeepsID(Opened(request.session, s.nextGatheringID, pid, request.key, request.now), pid);
  }

  lemma JoinedKeepsID(g: Gathering, pid: PID)
    ensures Joined(g, pid, 1).info.id == g.info.id
  {
  }

  lemma OpenedFacts(request: MatchmakeSession, gid: nat, pid: PID, key: nat, now: nat)
    ensures Opened(request, gid, pid, key, now).participants == [] && Opened(request, gid, pid, key, now).info.id == gid
  {
  }

  /** Creating by hand fails exactly on an oversized party, and then the caller has lost its
      old gatherings for nothing. */
  lemma FailedCreationStillLeaves(env: Env, s: State, pid: PID, request: Request)
    requires Inv(s) && request.CreateMatchmakeSession? && Possible(env, s, pid, request)
    requires ValidSession(request.session, request.fits) && |request.message| <= MAX_MESSAGE_LENGTH
    ensures Handle(env, s, pid, request).reply.Failed? <==>
            0 != request.session.maximumParticipants < Heads(request.count)
    ensures Handle(env, s, pid, request).reply.Failed? ==>
              && Handle(env, s, pid, request).reply == Failed(SessionFull)
              && Step(env, s, pid, request).sessions == Scrubbed(s.sessions, pid) - {s.nextGatheringID}
              && Step(env, s, pid, request).nextGatheringID == U32(s.nextGatheringID + 1)
  {
    var departures := Departures(request.order, pid, Disconnect);
    DisconnectClosedForm(env, s, request.order, pid, Disconnect);
    hide ApplyAll, Scrubbed, DepartureEvents, CreateEffect, Inv, Possible;
    var t := ApplyAll(env, s, departures);
    assert Handle(env, s, pid, request)
        == CreateEffect(env, t, departures, pid, request.session, request.count, request.message, request.key,
                        request.now);
    hide Handle;
    CreateFailsExactly(env, t, departures, pid, request.session, request.count, request.message, request.key,
                       request.now);
    ApplyAllSnoc(env, s, departures, Burn);
  }

  lemma CreateFailsExactly(env: Env, t: State, departures: seq<Move>, pid: PID, session: MatchmakeSession,
                           count: UInt16,
                           message: string, key: nat, now: nat)
    ensures var effect := CreateEffect(env, t, departures, pid, session, count, message, key, now);
            && (effect.reply.Failed? <==> 0 != session.maximumParticipants < Heads(count))
            && (effect.reply.Failed? ==> effect == Effect(departures + [Burn], Failed(SessionFull)))
  {
    hide Joined;
  }
}
