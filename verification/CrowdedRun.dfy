/** A run that packs 2^32 - 3 heads into a gathering and then limits it to 2, and what goes wrong after it. */
module CrowdedRun {
  import opened Common
  import opened Gatherings
  import opened Handlers
  import opened Invariants
  import opened Runs
  import opened HeadCounts
  import opened AutoMatchmaking
  import opened Totality

  const OWNER: PID := 7
  const LATECOMER: PID := 8
  const STRANGER: PID := 9

  const CREATION: Request := CreateMatchmakeSession(NEW_GATHERING, true, 1, "", 0, 0, [])
  const LATE_JOIN: Request := JoinMatchmakeSession(1, 65532, "")
  const LOWERED: MatchmakeSession := NEW_GATHERING.(id := 1, maximumParticipants := 2)
  const LOWERING: Request := UpdateSession(LOWERED, true, true)

  /** The gathering is the only one, and the first that was created. */
  ghost predicate Alone(s: State, g: Gathering) { s.sessions == map[1 := g] && s.nextGatheringID == 2 }

  /** The owner's gathering once k consoles with 65535 players each have joined it. */
  function Crowd(k: nat): Gathering {
    if k == 0 then Joined(Opened(NEW_GATHERING, 1, OWNER, 0, 0), OWNER, 1) else Joined(Crowd(k - 1), 100 + k, 65535)
  }

  function Arrivals(k: nat): seq<Call> {
    if k == 0 then [Call(OWNER, CREATION)] else Arrivals(k - 1) + [Call(100 + k, JoinMatchmakeSession(1, 65535, ""))]
  }

  /** Everything in a gathering's record but the two fields that this run changes. */
  predicate Plain(g: Gathering) {
    g.info == NEW_GATHERING.(id := 1, ownerPID := OWNER, hostPID := OWNER,
                        participationCount := g.HeadCount(), maximumParticipants := g.info.maximumParticipants)
  }

  lemma JoinedFacts(g: Gathering, pid: PID, heads: UInt16)
    requires Plain(g) && heads > 0
    ensures var after := Joined(g, pid, heads);
            && Plain(after) && after.info.maximumParticipants == g.info.maximumParticipants
            && |after.participants| == |g.participants| + heads
            && forall p :: p in after.participants <==> p in g.participants || p == pid
  {
    CopiesFacts<PID>(pid, heads);
    hide Copies;
  }

  lemma OpenedIsPlain()
    ensures Plain(Opened(NEW_GATHERING, 1, OWNER, 0, 0)) && Opened(NEW_GATHERING, 1, OWNER, 0, 0).participants == []
    ensures Opened(NEW_GATHERING, 1, OWNER, 0, 0).info.maximumParticipants == 0
  {
  }

  lemma {:induction false} CrowdFacts(k: nat)
    ensures |Crowd(k).participants| == 1 + 65535 * k
    ensures OWNER in Crowd(k).participants
    ensures forall p :: p in Crowd(k).participants ==> p == OWNER || 100 < p <= 100 + k
    ensures Plain(Crowd(k)) && Crowd(k).info.maximumParticipants == 0
  {
    hide Joined, Opened, Plain;
    if k == 0 {
      OpenedIsPlain();
      JoinedFacts(Opened(NEW_GATHERING, 1, OWNER, 0, 0), OWNER, 1);
    } else {
      CrowdFacts(k - 1);
      JoinedFacts(Crowd(k - 1), 100 + k, 65535);
    }
  }

  /** An open gathering whose test for room passes takes anyone new. */
  lemma Joins(env: Env, s: State, g: Gathering, pid: PID, heads: UInt16)
    requires Alone(s, g) && Plain(g) && !Gatherings.Full(g, heads) && pid !in g.participants && heads > 0
    ensures Possible(env, s, pid, JoinMatchmakeSession(1, heads, ""))
    ensures Handle(env, s, pid, JoinMatchmakeSession(1, heads, "")).reply.SessionKey?
    ensures Alone(Step(env, s, pid, JoinMatchmakeSession(1, heads, "")), Joined(g, pid, heads))
  {
    OneMove(env, s, Admit(1, pid, heads, ""));
    hide Joined, JoinEvents, ApplyAll;
    assert Handle(env, s, pid, JoinMatchmakeSession(1, heads, "")).moves == [Admit(1, pid, heads, "")];
    assert s.sessions[1 := Joined(g, pid, heads)] == map[1 := Joined(g, pid, heads)];
  }

  lemma Creates(env: Env)
    ensures Possible(env, Gatherings.EMPTY, OWNER, CREATION)
    ensures Alone(Step(env, Gatherings.EMPTY, OWNER, CREATION), Crowd(0))
  {
    var created := Opened(NEW_GATHERING, 1, OWNER, 0, 0);
    var move := Open(NEW_GATHERING, OWNER, 1, "", 0, 0);
    assert SetOf<nat>([]) == {} && Departures([], OWNER, Disconnect) == [];
    OpenedIsPlain();
    OneMove(env, Gatherings.EMPTY, move);
    hide Joined, JoinEvents, Opened;
    assert ApplyAll(env, Gatherings.EMPTY, []) == Gatherings.EMPTY;
    hide ApplyAll, Departures;
    assert Handle(env, Gatherings.EMPTY, OWNER, CREATION).moves == [] + [move];
    assert Gatherings.EMPTY.sessions[1 := created][1 := Crowd(0)] == map[1 := Crowd(0)];
  }

  lemma {:induction false} CrowdArrives(env: Env, k: nat)
    ensures Reachable(env, Arrivals(k)) && Alone(Final(env, Arrivals(k)), Crowd(k))
  {
    hide Step, Possible, Plain, Joined, Opened, Handle;
    if k == 0 {
      Creates(env);
      OneMoreCall(env, [], Call(OWNER, CREATION));
      assert [] + [Call(OWNER, CREATION)] == Arrivals(0);
    } else {
      CrowdArrives(env, k - 1);
      CrowdFacts(k - 1);
      hide Reachable, Final, Alone;
      Joins(env, Final(env, Arrivals(k - 1)), Crowd(k - 1), 100 + k, 65535);
      OneMoreCall(env, Arrivals(k - 1), Call(100 + k, JoinMatchmakeSession(1, 65535, "")));
    }
  }

  /** The owner lowers the limit. */
  function Lowered(g: Gathering): Gathering { g.(info := Updated(g, LOWERED)) }

  lemma Lowers(env: Env, s: State, g: Gathering)
    requires Alone(s, g) && Plain(g)
    ensures Possible(env, s, OWNER, LOWERING) && Alone(Step(env, s, OWNER, LOWERING), Lowered(g))
  {
    var move := Revise(1, Lowered(g).info, g.url);
    OneMove(env, s, move);
    hide ApplyAll;
    assert Handle(env, s, OWNER, LOWERING).moves == [move];
    assert s.sessions[1 := Lowered(g)] == map[1 := Lowered(g)];
  }

  /** Nobody but the latecomer joins after k consoles have. */
  function Packed(k: nat): Gathering { Joined(Crowd(k), LATECOMER, 65532) }

  lemma PackedFacts(k: nat)
    ensures LATECOMER !in Crowd(k).participants && STRANGER !in Packed(k).participants
    ensures Plain(Packed(k)) && OWNER in Packed(k).participants && |Packed(k).participants| == 65533 + 65535 * k
  {
    CrowdFacts(k);
    hide Plain, Joined;
    JoinedFacts(Crowd(k), LATECOMER, 65532);
  }

  lemma {:induction false} LatecomerJoins(env: Env, k: nat)
    ensures Reachable(env, Arrivals(k) + [Call(LATECOMER, LATE_JOIN)])
    ensures Alone(Final(env, Arrivals(k) + [Call(LATECOMER, LATE_JOIN)]), Packed(k))
  {
    CrowdArrives(env, k);
    PackedFacts(k);
    CrowdFacts(k);
    hide Step, Possible, Handle, Plain, Joined, Crowd, Arrivals, Reachable, Final, Alone;
    Joins(env, Final(env, Arrivals(k)), Crowd(k), LATECOMER, 65532);
    OneMoreCall(env, Arrivals(k), Call(LATECOMER, LATE_JOIN));
  }

  /** The whole run, after k consoles have joined. */
  function Calls(k: nat): seq<Call> { Arrivals(k) + [Call(LATECOMER, LATE_JOIN)] + [Call(OWNER, LOWERING)] }

  lemma {:induction false} RunFills(env: Env, k: nat)
    ensures Reachable(env, Calls(k)) && Alone(Final(env, Calls(k)), Lowered(Packed(k)))
  {
    LatecomerJoins(env, k);
    PackedFacts(k);
    hide Step, Possible, Handle, Plain, Packed, Lowered, Arrivals, Reachable, Final, Alone;
    Lowers(env, Final(env, Arrivals(k) + [Call(LATECOMER, LATE_JOIN)]), Packed(k));
    OneMoreCall(env, Arrivals(k) + [Call(LATECOMER, LATE_JOIN)], Call(OWNER, LOWERING));
  }

  /** Two players are one too many for it, but five are not. */
  lemma FiveFit(g: Gathering)
    requires Plain(g) && |g.participants| == TWO32 - 3
    ensures Plain(Lowered(g)) && Lowered(g).participants == g.participants && Lowered(g).info.maximumParticipants == 2
    ensures Overflowing(Lowered(g)) && !Gatherings.Full(Lowered(g), 5)
  {
    Remainder(|g.participants|, 0, TWO32 - 3);
    Remainder(TWO32 - 2, 0, TWO32 - 2);
    Remainder(TWO32 + 2, 1, 2);
  }

  lemma StrangerMayFail(env: Env, s: State, g: Gathering)
    requires env.allowPublic && Alone(s, g) && Plain(g) && Overflowing(g) && STRANGER !in g.participants
    ensures MayFail(env, s, STRANGER)
  {
    assert 1 in Scrubbed(s.sessions, STRANGER);
    WithoutFacts(g.participants, STRANGER);
    assert Openable(env, STRANGER, g);
  }

  /** The gathering as this run leaves it. */
  ghost predicate Crowded(g: Gathering) {
    && Plain(g) && g.info.maximumParticipants == 2 && |g.participants| == TWO32 - 3 && STRANGER !in g.participants
    && Overflowing(g) && !Gatherings.Full(g, 5)
  }

  lemma WholeRun(env: Env) returns (calls: seq<Call>, g: Gathering)
    ensures Reachable(env, calls) && Alone(Final(env, calls), g) && Crowded(g)
  {
    var k: nat :| k == 65536;
    calls, g := Calls(k), Lowered(Packed(k));
    RunFills(env, k);
    PackedFacts(k);
    FiveFit(Packed(k));
    hide Calls, Reachable, Final, Packed, Lowered, Plain, Overflowing, Alone, Gatherings.Full;
  }

  /** Automatic matchmaking is not total: this run ends in a state in which a valid request fails. */
  lemma AutoCanFail(env: Env)
    requires env.allowPublic
    ensures exists calls: seq<Call>, pid: PID, request: Request ::
              && Reachable(env, calls) && Accepted(env, Final(env, calls), pid, request)
              && Handle(env, Final(env, calls), pid, request).reply == Failed(SessionFull)
  {
    var calls, g := WholeRun(env);
    hide Reachable, Final, Plain, Overflowing, MayFail, Handle, Possible, Alone, Gatherings.Full, Inv;
    StrangerMayFail(env, Final(env, calls), g);
    RunKeepsInv(env, calls);
    var request := OverflowFails(env, Final(env, calls), STRANGER, NEW_GATHERING);
  }

  /** Nor does the test for room hold: this run goes on with a join that passes the limit of 2. */
  lemma LimitCanBePassed(env: Env)
    ensures exists calls: seq<Call>, pid: PID, request: Request ::
              && Reachable(env, calls) && Possible(env, Final(env, calls), pid, request)
              && JoinedBy(request, Handle(env, Final(env, calls), pid, request).reply, 1)
              && Overfull(Step(env, Final(env, calls), pid, request), 1)
  {
    var calls, g := WholeRun(env);
    var request := JoinMatchmakeSession(1, 5, "");
    Joins(env, Final(env, calls), g, STRANGER, 5);
    JoinedFacts(g, STRANGER, 5);
    hide Reachable, Final, Joined, Handle, Possible, Step, Gatherings.Full, Plain;
    assert JoinedBy(request, Handle(env, Final(env, calls), STRANGER, request).reply, 1);
  }

  /** More than 2^32 heads where 2 are allowed. */
  ghost predicate Overfull(s: State, gid: nat) {
    gid in s.sessions && s.sessions[gid].info.maximumParticipants == 2 && |s.sessions[gid].participants| == TWO32 + 2
  }
}
