/** Exactly when automatic matchmaking can fail, as a condition on the store before the request. */
module Totality {
  import opened Common
  import opened Decimal
  import opened Gatherings
  import opened Sorting
  import opened Search
  import opened Handlers
  import opened Invariants
  import opened Runs
  import opened AutoMatchmaking

  /** No place for one more, yet so many heads that the 32-bit sum with some party's wraps to within the limit. */
  predicate Overflowing(g: Gathering) {
    && g.info.maximumParticipants != 0
    && U32(g.HeadCount() + 1) > g.info.maximumParticipants
    && g.HeadCount() >= TWO32 - 65535
  }

  /** Which is to say that the vacancy filter can be made to let a gathering through that refuses one player. */
  lemma OverflowingExactly(g: Gathering)
    ensures Overflowing(g) <==> NoRoomForOne(g) && exists heads: UInt16 :: heads >= 1 && !Full(g, heads)
  {
    var h: nat := g.HeadCount();
    if Overflowing(g) {
      var heads: nat := TWO32 - h;
      Remainder(h + heads, 1, 0);
      Remainder(h + 1, if h + 1 < TWO32 then 0 else 1, if h + 1 < TWO32 then h + 1 else 0);
      assert !Full(g, heads);
    }
    if NoRoomForOne(g) {
      U32AtMost(h + 1);
      forall heads: UInt16 | heads >= 1 && !Full(g, heads) ensures h >= TWO32 - 65535 {
        U32AtMost(h + heads);
      }
    }
  }

  lemma U32AtMost(n: nat)
    ensures U32(n) <= n && (n < TWO32 ==> U32(n) == n)
  {
  }

  /** The caller passes every other test that stands between a search and the join. */
  predicate Openable(env: Env, pid: PID, g: Gathering) {
    CanJoin(env, pid, g.info).None? && g.info.hostPID != 0
  }

  /** Once pid has left all its gatherings, one that it may enter is overflowing, and discovery is on. */
  ghost predicate MayFail(env: Env, s: State, pid: PID) {
    && env.allowPublic
    && exists gid :: gid in Scrubbed(s.sessions, pid)
                     && Overflowing(Scrubbed(s.sessions, pid)[gid])
                     && Openable(env, pid, Scrubbed(s.sessions, pid)[gid])
  }

  // ---- A failure needs such a gathering ---------------------------------------------------------

  lemma PassingOpens(env: Env, pid: PID, criterias: seq<Criteria>, g: Gathering)
    requires PassesSome(env, pid, criterias, g) && CanJoin(env, pid, g.info).None? && NoRoomForOne(g)
    ensures Overflowing(g) && Openable(env, pid, g)
  {
    var options := AutoOptions(env, pid);
    var i :| 0 <= i < |criterias| && WellFormed(Restrict(criterias[i], options))
             && Passes(env, pid, Restrict(criterias[i], options), options, g);
    assert !Full(g, Heads(criterias[i].vacantParticipants));
    OverflowingExactly(g);
  }

  lemma FailureNeedsOverflow(env: Env, s: State, pid: PID, request: Request)
    requires Accepted(env, s, pid, request) && Handle(env, s, pid, request).reply.Failed?
    ensures MayFail(env, s, pid)
  {
    hide Handle, Choose, NoRoomForOne, PassesSome, Suitable, Overflowing, Openable, Scrubbed, Departures, Enumerates;
    AutoFailsExactly(env, s, pid, request);
    ClearedFacts(env, s, pid, request);
    CreatesExactlyWithoutMatch(env, s, pid, request);
    var t := Cleared(env, s, pid, request);
    assert OwnIDs(t);
    hide Inv, Consistent, OwnIDs, Equivalent, CanJoin;
    ChoiceIsLive(env, t, pid, request.criterias, request.session, request.listings);
    PassingOpens(env, pid, request.criterias, Choice(env, s, pid, request).value);
  }

  // ---- Such a gathering can be made to fail -----------------------------------------------------

  /** A criteria that any gathering with as many attributes meets, nearest attribute 1 first, for a party of heads. */
  function Anything(attributes: seq<UInt32>, heads: UInt16): Criteria {
    Criteria(seq(|attributes|, i requires 0 <= i < |attributes| => if i == 1 then Format(attributes[1]) else ""),
             "", "", "", "", true, true, true, NearestNeighbor, heads)
  }

  lemma AnythingPasses(env: Env, pid: PID, g: Gathering, heads: UInt16)
    requires Openable(env, pid, g) && g.info.ownerPID != pid && heads >= 1 && !Full(g, heads)
    ensures var criteria := Anything(g.info.attributes, heads);
            && Restrict(criteria, AutoOptions(env, pid)) == criteria && WellFormed(criteria)
            && Passes(env, pid, criteria, AutoOptions(env, pid), g)
  {
    hide ParseUint, CommaIndex;
  }

  /** The gathering the criteria is made for is as near as can be. */
  lemma AnythingIsNearest(g: Gathering, heads: UInt16, other: Gathering)
    ensures var key := NearestKey(ReferenceAttribute(Anything(g.info.attributes, heads)));
            key(g) == 0 && key(other) >= 0
  {
    if |g.info.attributes| > 1 { FormatParses(g.info.attributes[1], TWO32); }
    hide ParseUint, Format;
  }

  lemma AnythingFindsFirst(env: Env, pid: PID, g: Gathering, heads: UInt16, rest: seq<Gathering>,
                           session: MatchmakeSession)
    requires Openable(env, pid, g) && g.info.ownerPID != pid && heads >= 1 && !Full(g, heads)
    ensures var hits := Hits(env, pid, Anything(g.info.attributes, heads), ResultRange(0, 1), Some(session),
                             AutoOptions(env, pid), [g] + rest);
            hits != [] && hits[0] == g
  {
    var criteria, options := Anything(g.info.attributes, heads), AutoOptions(env, pid);
    AnythingPasses(env, pid, g, heads);
    PassesFirst(env, pid, criteria, options, g, rest);
    NearestFirst(g.info.attributes, heads, session);
    hide Passes, Anything, WellFormed, Matches, NearestKey, SelectionKey;
    var key := NearestKey(ReferenceAttribute(criteria));
    forall other ensures key(g) <= key(other) { AnythingIsNearest(g, heads, other); }
    var others := Filter(rest, Keep(env, pid, criteria, options));
    StableSortHead([], g, others, key);
    assert [] + [g] + others == [g] + others;
  }

  lemma PassesFirst(env: Env, pid: PID, criteria: Criteria, options: SearchOptions, g: Gathering, rest: seq<Gathering>)
    requires Passes(env, pid, criteria, options, g)
    ensures Matches(env, pid, criteria, options, [g] + rest) == [g] + Filter(rest, Keep(env, pid, criteria, options))
  {
    var keep := Keep(env, pid, criteria, options);
    FilterConcat([g], rest, keep);
    assert Init([g]) == [] && Filter([g], keep) == [g];
  }

  lemma NearestFirst(attributes: seq<UInt32>, heads: UInt16, session: MatchmakeSession)
    ensures SelectionKey(Anything(attributes, heads), Some(session))
            == NearestKey(ReferenceAttribute(Anything(attributes, heads)))
  {
  }

  lemma ChosenFirst(env: Env, t: State, pid: PID, g: Gathering, heads: UInt16, rest: seq<Gathering>,
                    session: MatchmakeSession, listing: seq<nat>)
    requires env.allowPublic && Lookup(t.sessions, listing) == [g] + rest
    requires Openable(env, pid, g) && g.info.ownerPID != pid && heads >= 1 && !Full(g, heads)
    ensures Choose(env, t, pid, [Anything(g.info.attributes, heads)], session, [listing]) == Some(g)
  {
    hide Hits, Anything, Lookup, FindSession, Full, Overflowing;
    var criteria, options := Anything(g.info.attributes, heads), AutoOptions(env, pid);
    AnythingFindsFirst(env, pid, g, heads, rest, session);
    var alls := Listings(t, [listing]);
    assert alls == [[g] + rest];
    assert Init([criteria]) == [] && Init(alls) == [];
    assert AllHits(env, pid, [criteria], ResultRange(0, 1), Some(session), options, alls)
        == Hits(env, pid, criteria, ResultRange(0, 1), Some(session), options, [g] + rest);
  }

  lemma FirstListed(sessions: map<nat, Gathering>, gid: nat) returns (listing: seq<nat>, rest: seq<Gathering>)
    requires gid in sessions
    ensures Enumerates(listing, sessions.Keys) && Lookup(sessions, listing) == [sessions[gid]] + rest
  {
    var others := EnumerationExists(sessions.Keys - {gid});
    listing := [gid] + others;
    assert forall id :: id in others ==> id in SetOf(others);
    assert SetOf(listing) == {gid} + SetOf(others);
    rest := Lookup(sessions, others);
    LookupConcat(sessions, [gid], others);
    assert Init([gid]) == [];
  }

  lemma {:induction false} LookupConcat(sessions: map<nat, Gathering>, a: seq<nat>, b: seq<nat>)
    ensures Lookup(sessions, a + b) == Lookup(sessions, a) + Lookup(sessions, b)
  {
    if b == [] {
      assert a + b == a;
    } else {
      LookupConcat(sessions, a, Init(b));
      assert Init(a + b) == a + Init(b);
    }
  }

  /** Whatever session comes with it, a valid request fails on such a gathering. */
  lemma OverflowFails(env: Env, s: State, pid: PID, session: MatchmakeSession) returns (request: Request)
    requires Inv(s) && ValidSession(session, true) && MayFail(env, s, pid)
    ensures request.AutoMatchmake? && request.session == session && Accepted(env, s, pid, request)
    ensures Handle(env, s, pid, request).reply == Failed(SessionFull)
  {
    var order := EnumerationExists(s.sessions.Keys);
    var t := ApplyAll(env, s, Departures(order, pid, Disconnect));
    DisconnectClosedForm(env, s, order, pid, Disconnect);
    DisconnectForgets(s, pid);
    hide ApplyAll, Departures, Handle, Choose, Enumerates, Inv, Scrubbed;
    hide Full, NoRoomForOne, Overflowing, Openable, Anything;
    var gid :| gid in t.sessions && Overflowing(t.sessions[gid]) && Openable(env, pid, t.sessions[gid]);
    hide MayFail;
    var g := t.sessions[gid];
    OverflowingExactly(g);
    var heads: UInt16 :| heads >= 1 && !Full(g, heads);
    var listing, rest := FirstListed(t.sessions, gid);
    request := OverflowRequest(env, s, pid, session, order, t, g, heads, listing);
    ChosenFirst(env, t, pid, g, heads, rest, session, listing);
    ChosenRefuses(env, s, pid, request, g);
  }

  lemma OverflowRequest(env: Env, s: State, pid: PID, session: MatchmakeSession, order: seq<nat>, t: State,
                        g: Gathering,
                        heads: UInt16, listing: seq<nat>) returns (request: Request)
    requires Inv(s) && ValidSession(session, true) && Enumerates(order, s.sessions.Keys)
    requires t == ApplyAll(env, s, Departures(order, pid, Disconnect)) && Enumerates(listing, t.sessions.Keys)
    ensures request == AutoMatchmake([Anything(g.info.attributes, heads)], session, true, "", 0, 0, order, [listing])
    ensures Accepted(env, s, pid, request) && Cleared(env, s, pid, request) == t
  {
    hide ApplyAll, Departures, Enumerates, Inv, Anything;
    request := AutoMatchmake([Anything(g.info.attributes, heads)], session, true, "", 0, 0, order, [listing]);
  }

  lemma ChosenRefuses(env: Env, s: State, pid: PID, request: Request, g: Gathering)
    requires Accepted(env, s, pid, request) && Choice(env, s, pid, request) == Some(g) && NoRoomForOne(g)
    ensures Handle(env, s, pid, request).reply == Failed(SessionFull)
  {
    hide Handle, Choose, NoRoomForOne, Accepted, Possible, Departures, ApplyAll, Opened, Joined;
    AutoReply(env, s, pid, request);
  }

  /** Some valid request of pid fails in this state exactly when pid may come upon an overflowing gathering. */
  lemma FailsExactly(env: Env, s: State, pid: PID, session: MatchmakeSession)
    requires Inv(s) && ValidSession(session, true)
    ensures MayFail(env, s, pid) <==>
            exists request: Request :: Accepted(env, s, pid, request) && request.session == session
                                       && Handle(env, s, pid, request).reply.Failed?
  {
    hide Handle, MayFail, Possible, Inv;
    if MayFail(env, s, pid) {
      var request := OverflowFails(env, s, pid, session);
    }
    forall request: Request
      | Accepted(env, s, pid, request) && request.session == session && Handle(env, s, pid, request).reply.Failed?
      ensures MayFail(env, s, pid)
    {
      FailureNeedsOverflow(env, s, pid, request);
    }
  }

  /** Automatic matchmaking is total in a state exactly when no player may come upon an overflowing gathering. */
  lemma NeverFailsExactly(env: Env, s: State)
    requires Inv(s)
    ensures (forall pid: PID :: !MayFail(env, s, pid)) <==>
            forall pid: PID, request: Request ::
              Accepted(env, s, pid, request) ==> !Handle(env, s, pid, request).reply.Failed?
  {
    hide Handle, MayFail, Possible, Inv;
    forall pid: PID, request: Request | Accepted(env, s, pid, request) && Handle(env, s, pid, request).reply.Failed?
      ensures MayFail(env, s, pid)
    {
      FailureNeedsOverflow(env, s, pid, request);
    }
    forall pid: PID | MayFail(env, s, pid)
      ensures exists request: Request :: Accepted(env, s, pid, request) && Handle(env, s, pid, request).reply.Failed?
    {
      var request := OverflowFails(env, s, pid, NEW_GATHERING);
    }
  }
}
