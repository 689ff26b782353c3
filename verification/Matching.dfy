/** What automatic matchmaking does for a player: the terms of the gathering it gives, and which gathering it takes. */
module Matching {
  import opened Common
  import opened Gatherings
  import opened Search
  import opened Handlers
  import opened Invariants
  import opened Runs
  import opened AutoMatchmaking
  import opened Wishes

  // ---- A described session ----------------------------------------------------------------------

  /** A gathering on the terms that were asked for; attribute 1 may differ. */
  predicate OnTerms(info: MatchmakeSession, wanted: MatchmakeSession) {
    && info.gameMode == wanted.gameMode && info.matchmakeSystemType == wanted.matchmakeSystemType
    && info.maximumParticipants == wanted.maximumParticipants && info.minimumParticipants == wanted.minimumParticipants
    && |info.attributes| == |wanted.attributes|
    && forall i :: 0 <= i < |wanted.attributes| && i != 1 ==> info.attributes[i] == wanted.attributes[i]
  }

  /** A gathering that is open to the player: no password, and a place is left. */
  predicate Welcomes(env: Env, pid: PID, g: Gathering) {
    && g.info.hostPID != 0 && g.info.openParticipation
    && !g.info.userPasswordEnabled && !g.info.systemPasswordEnabled
    && (g.info.maximumParticipants == 0 || |g.participants| % 0x1_0000_0000 < g.info.maximumParticipants)
    && Befriended(env, pid, g.info)
  }

  lemma EquivalentMeans(env: Env, pid: PID, wanted: MatchmakeSession, g: Gathering)
    ensures Equivalent(env, pid, wanted, g) <==> OnTerms(g.info, wanted) && Welcomes(env, pid, g)
  {
  }

  lemma JoinedOnTerms(g: Gathering, pid: PID, wanted: MatchmakeSession)
    ensures OnTerms(Joined(g, pid, 1).info, wanted) <==> OnTerms(g.info, wanted)
    ensures Joined(g, pid, 1).info.ownerPID == g.info.ownerPID && Joined(g, pid, 1).info.id == g.info.id
    ensures Joined(g, pid, 1).info.attributes == g.info.attributes
  {
  }

  lemma OpenedOnTerms(wanted: MatchmakeSession, gid: nat, pid: PID, key: nat, now: nat)
    ensures OnTerms(Opened(wanted, gid, pid, key, now).info, wanted)
    ensures Opened(wanted, gid, pid, key, now).info.ownerPID == pid
  {
  }

  /** The gathering that is joined, as it stood before. */
  lemma ChosenStood(env: Env, s: State, pid: PID, request: Request)
    requires Accepted(env, s, pid, request) && Choice(env, s, pid, request).Some?
    ensures var g := Choice(env, s, pid, request).value;
            && g.info.id in s.sessions && g == Left(s.sessions[g.info.id], pid) && g.info.ownerPID != pid
            && (request.criterias == [] ==> Equivalent(env, pid, request.session, g))
            && (request.criterias != [] ==> PassesSome(env, pid, request.criterias, g))
            && CanJoin(env, pid, g.info).None?
  {
    hide Choose, Left, Equivalent, PassesSome, CanJoin, Enumerates, ValidSession;
    var t := Cleared(env, s, pid, request);
    ClearedFacts(env, s, pid, request);
    assert OwnIDs(t);
    hide Inv, OwnIDs, Cleared;
    ChoiceIsLive(env, t, pid, request.criterias, request.session, request.listings);
  }

  /** The caller of a request without criteria gets a gathering on its terms, its own or one that welcomed it. */
  lemma AutoGivesTerms(env: Env, s: State, pid: PID, request: Request)
    requires Accepted(env, s, pid, request) && request.criterias == []
    ensures var reply := Handle(env, s, pid, request).reply;
            && reply.Session? && OnTerms(reply.info, request.session)
            && (reply.info.ownerPID != pid ==>
                  env.allowPublic && reply.info.id in s.sessions
                  && Welcomes(env, pid, Left(s.sessions[reply.info.id], pid)))
  {
    AutoReply(env, s, pid, request);
    AutoFailsExactly(env, s, pid, request);
    CreatesExactlyWithoutMatch(env, s, pid, request);
    OpenedOnTerms(request.session, s.nextGatheringID, pid, request.key, request.now);
    JoinedOnTerms(Opened(request.session, s.nextGatheringID, pid, request.key, request.now), pid, request.session);
    hide Handle, Choice, Accepted, Joined, Opened, Left, OnTerms, Welcomes, Equivalent;
    if Choice(env, s, pid, request).Some? {
      var g := Choice(env, s, pid, request).value;
      ChosenStood(env, s, pid, request);
      EquivalentMeans(env, pid, request.session, g);
      JoinedOnTerms(g, pid, request.session);
    }
  }

  /** If any gathering that the caller is not in is on its terms and welcomes it, the caller joins such a gathering,
      with none of them nearer in attribute 1. */
  lemma AutoTakesNearest(env: Env, s: State, pid: PID, request: Request, gid: nat)
    requires Accepted(env, s, pid, request) && request.criterias == [] && env.allowPublic
    requires gid in s.sessions && pid !in s.sessions[gid].participants
    requires OnTerms(s.sessions[gid].info, request.session) && Welcomes(env, pid, s.sessions[gid])
    ensures var reply := Handle(env, s, pid, request).reply;
            && reply.Session? && reply.info.ownerPID != pid && |reply.info.attributes| == 6
            && forall d: nat :: Near(request.session.attributes[1], s.sessions[gid].info.attributes[1], d) ==>
                                Near(request.session.attributes[1], reply.info.attributes[1], d)
  {
    EquivalentMeans(env, pid, request.session, s.sessions[gid]);
    AutoGivesTerms(env, s, pid, request);
    AutoReply(env, s, pid, request);
    NearestIsChosen(env, s, pid, request, gid);
    hide Handle, Choice, Joined, Opened, Left, Welcomes, Equivalent, Possible, Inv, Distance, Near;
    var g := Choice(env, s, pid, request).value;
    ChosenStood(env, s, pid, request);
    JoinedOnTerms(g, pid, request.session);
    var r := request.session.attributes[1];
    DistanceIsGap(r, g.info.attributes[1], 0, 0);
    DistanceIsGap(r, s.sessions[gid].info.attributes[1], 0, 0);
  }

  lemma NearestIsChosen(env: Env, s: State, pid: PID, request: Request, gid: nat)
    requires Accepted(env, s, pid, request) && request.criterias == [] && env.allowPublic
    requires gid in s.sessions && pid !in s.sessions[gid].participants
    requires Equivalent(env, pid, request.session, s.sessions[gid])
    ensures Choice(env, s, pid, request).Some?
    ensures var r := WantedAttribute1(request.session);
            Distance(r, Attribute1(Choice(env, s, pid, request).value)) <= Distance(r, Attribute1(s.sessions[gid]))
  {
    hide Equivalent, Distance, Attribute1, WantedAttribute1, CanJoin, FindSession, Lookup, Enumerates, Scrubbed;
    var t := Cleared(env, s, pid, request);
    ClearedFacts(env, s, pid, request);
    LookupComplete(t.sessions, request.listings[0], gid);
    var all := Lookup(t.sessions, request.listings[0]);
    FindSessionOptimal(env, pid, request.session, all);
    EquivalentCanJoin(env, pid, request.session, FindSession(env, pid, request.session, all).value);
  }

  // ---- A list of wishes -------------------------------------------------------------------------

  /** The options of every search that automatic matchmaking makes for a player. */
  function Options(env: Env, pid: PID): SearchOptions { SearchOptions(true, pid, env.allowPublic) }

  /** The first hit of a list of wishes is granted by one of them, and no wish before that one had any. */
  lemma {:induction false} FirstHitIsEarliest(env: Env, pid: PID, wishes: seq<Wish>, session: MatchmakeSession,
                                              alls: seq<seq<Gathering>>) returns (i: nat)
    requires |alls| == |wishes|
    requires AllHits(env, pid, WrittenAll(wishes), ResultRange(0, 1), Some(session), Options(env, pid), alls) != []
    ensures var hits := AllHits(env, pid, WrittenAll(wishes), ResultRange(0, 1), Some(session), Options(env, pid),
                                alls);
            i < |wishes| && hits[0] in alls[i] && Granted(env, pid, wishes[i], Options(env, pid), hits[0])
    ensures forall j, g :: 0 <= j < i && g in alls[j] ==> !Granted(env, pid, wishes[j], Options(env, pid), g)
  {
    hide Granted, Hits, Written;
    var options, range := Options(env, pid), ResultRange(0, 1);
    var earlier, before := Init(wishes), Init(alls);
    assert WrittenAll(earlier) == Init(WrittenAll(wishes));
    if AllHits(env, pid, WrittenAll(earlier), range, Some(session), options, before) != [] {
      i := FirstHitIsEarliest(env, pid, earlier, session, before);
    } else {
      i := |wishes| - 1;
      var hits := AllHits(env, pid, WrittenAll(wishes), range, Some(session), options, alls);
      HitOfLast(env, pid, wishes, session, alls, hits[0]);
      forall j, g | 0 <= j < i && g in alls[j] ensures !Granted(env, pid, wishes[j], options, g) {
        if Granted(env, pid, wishes[j], options, g) {
          GrantedIsHit(env, pid, earlier, range, Some(session), options, before, j, g);
        }
      }
    }
  }

  lemma HitOfLast(env: Env, pid: PID, wishes: seq<Wish>, session: MatchmakeSession, alls: seq<seq<Gathering>>,
                  g: Gathering)
    requires |alls| == |wishes| && wishes != []
    requires g in Hits(env, pid, Written(Last(wishes)), ResultRange(0, 1), Some(session), Options(env, pid), Last(alls))
    ensures g in Last(alls) && Granted(env, pid, Last(wishes), Options(env, pid), g)
  {
    hide Hits, Granted, Written;
    var wish, all := Last(wishes), Last(alls);
    FoundByOne(env, pid, Written(wish), ResultRange(0, 1), Some(session), Options(env, pid), all);
    assert WrittenAll([wish]) == [Written(wish)];
    HitIsGranted(env, pid, [wish], ResultRange(0, 1), Some(session), Options(env, pid), [all], g);
  }

  /** Whoever is matched by wishes gets a gathering that fits one of them and was open to it, while nothing that the
      caller was not in would have granted an earlier wish. */
  lemma AutoGrantsEarliestWish(env: Env, s: State, pid: PID, request: Request, wishes: seq<Wish>)
    requires Accepted(env, s, pid, request) && wishes != [] && request.criterias == WrittenAll(wishes)
    requires Handle(env, s, pid, request).reply.Session? && Handle(env, s, pid, request).reply.info.ownerPID != pid
    ensures var info := Handle(env, s, pid, request).reply.info;
            && info.id in s.sessions && s.sessions[info.id].info.openParticipation
            && exists i :: 0 <= i < |wishes| && Fits(wishes[i], info) && Befriended(env, pid, info)
                 && forall j, gid :: 0 <= j < i && gid in s.sessions && pid !in s.sessions[gid].participants ==>
                      !Granted(env, pid, wishes[j], Options(env, pid), s.sessions[gid])
  {
    AutoReply(env, s, pid, request);
    OpenedOnTerms(request.session, s.nextGatheringID, pid, request.key, request.now);
    JoinedOnTerms(Opened(request.session, s.nextGatheringID, pid, request.key, request.now), pid, request.session);
    hide Handle, Accepted, Opened, NoRoomForOne, OnTerms;
    var g := Choice(env, s, pid, request).value;
    ChosenStood(env, s, pid, request);
    hide Choice, PassesSome, Joined;
    var i := ChosenByEarliest(env, s, pid, request, wishes);
    FittingJoined(wishes[i], g, pid);
  }

  lemma FittingJoined(wish: Wish, g: Gathering, pid: PID)
    ensures Fits(wish, Joined(g, pid, 1).info) <==> Fits(wish, g.info)
    ensures Joined(g, pid, 1).info.id == g.info.id && Joined(g, pid, 1).info.ownerPID == g.info.ownerPID
    ensures Joined(g, pid, 1).info.participationPolicy == g.info.participationPolicy
  {
  }

  lemma ChosenByEarliest(env: Env, s: State, pid: PID, request: Request, wishes: seq<Wish>) returns (i: nat)
    requires Accepted(env, s, pid, request) && wishes != [] && request.criterias == WrittenAll(wishes)
    requires Choice(env, s, pid, request).Some?
    ensures i < |wishes| && Granted(env, pid, wishes[i], Options(env, pid), Choice(env, s, pid, request).value)
    ensures forall j, gid :: 0 <= j < i && gid in s.sessions && pid !in s.sessions[gid].participants ==>
              !Granted(env, pid, wishes[j], Options(env, pid), s.sessions[gid])
  {
    hide Granted, AllHits, Written, CanJoin, Enumerates, Scrubbed, ValidSession;
    var t := Cleared(env, s, pid, request);
    ClearedFacts(env, s, pid, request);
    hide Inv;
    var alls := Listings(t, request.listings);
    SearchHeadJoinable(env, t, pid, request.criterias, request.session, request.listings);
    i := FirstHitIsEarliest(env, pid, wishes, request.session, alls);
    HeadIsChosen(env, t, pid, request.criterias, request.session, request.listings);
    forall j, gid | 0 <= j < i && gid in s.sessions && pid !in s.sessions[gid].participants
      ensures !Granted(env, pid, wishes[j], Options(env, pid), s.sessions[gid])
    {
      LookupComplete(t.sessions, request.listings[j], gid);
    }
  }

  /** A search for one result finds the first hit, which can be joined. */
  lemma HeadIsChosen(env: Env, t: State, pid: PID, criterias: seq<Criteria>, session: MatchmakeSession,
                     listings: seq<seq<nat>>)
    requires |listings| == |criterias| && criterias != []
    requires Choose(env, t, pid, criterias, session, listings).Some?
    ensures var hits := AllHits(env, pid, criterias, ResultRange(0, 1), Some(session), Options(env, pid),
                                Listings(t, listings));
            hits != [] && Choose(env, t, pid, criterias, session, listings).value == hits[0]
  {
    hide AllHits, CanJoin, FirstJoinable;
    var alls, options := Listings(t, listings), Options(env, pid);
    var hits := AllHits(env, pid, criterias, ResultRange(0, 1), Some(session), options, alls);
    var found := SearchResult(env, pid, criterias, ResultRange(0, 1), Some(session), options, alls);
    assert options == AutoOptions(env, pid) && found == if hits == [] || !env.allowPublic then [] else [hits[0]];
    FirstJoinableFacts(env, pid, found);
  }

  /** Nor is anybody sent off with a gathering of its own while one that it is not in would grant a wish. */
  lemma AutoMissesNoWish(env: Env, s: State, pid: PID, request: Request, wishes: seq<Wish>, i: nat, gid: nat)
    requires Accepted(env, s, pid, request) && wishes != [] && request.criterias == WrittenAll(wishes)
    requires env.allowPublic && i < |wishes| && gid in s.sessions && pid !in s.sessions[gid].participants
    requires Granted(env, pid, wishes[i], Options(env, pid), s.sessions[gid])
    ensures var reply := Handle(env, s, pid, request).reply;
            reply.Session? ==> reply.info.ownerPID != pid
  {
    AutoReply(env, s, pid, request);
    WishIsSuitable(env, s, pid, request, wishes, i, gid);
    CreatesExactlyWithoutMatch(env, s, pid, request);
    ClearedFacts(env, s, pid, request);
    hide Handle, Accepted, Joined, Opened, NoRoomForOne, Suitable, Granted, Scrubbed, Inv;
    assert Choice(env, s, pid, request).Some?;
    ChosenStood(env, s, pid, request);
    FittingJoined(wishes[i], Choice(env, s, pid, request).value, pid);
  }

  lemma WishIsSuitable(env: Env, s: State, pid: PID, request: Request, wishes: seq<Wish>, i: nat, gid: nat)
    requires Accepted(env, s, pid, request) && wishes != [] && request.criterias == WrittenAll(wishes)
    requires i < |wishes| && gid in s.sessions && Granted(env, pid, wishes[i], Options(env, pid), s.sessions[gid])
    ensures Suitable(env, pid, request, s.sessions[gid])
  {
    hide Passes, WellFormed, Granted, Written, Restrict;
    FiltersMeanWish(env, pid, wishes[i], Options(env, pid), s.sessions[gid]);
    WrittenIsWellFormed(wishes[i], Options(env, pid));
    assert request.criterias[i] == Written(wishes[i]);
  }
}
