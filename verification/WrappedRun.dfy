/** A run in which the gathering IDs wrap around and a registration takes the ID of somebody else's live gathering. */
module WrappedRun {
  import opened Common
  import opened Gatherings
  import opened Handlers
  import opened Invariants
  import opened Runs

  const VICTIM: PID := 2
  const CALLER: PID := 1

  /** A gathering that its owner registered and nobody else joined. */
  function Single(gid: nat, pid: PID): Gathering { Joined(Opened(NEW_GATHERING, gid, pid, 0, 0), pid, 1) }

  ghost predicate Singles(sessions: map<nat, Gathering>) {
    forall gid :: gid in sessions ==> sessions[gid] == Single(gid, sessions[gid].info.ownerPID)
  }

  /** Nobody hears of it when the only player of a gathering comes or goes. */
  lemma SingleFacts(env: Env, gid: nat, pid: PID)
    ensures Single(gid, pid).participants == [pid] && Single(gid, pid).info.ownerPID == pid
    ensures JoinEvents(env, Opened(NEW_GATHERING, gid, pid, 0, 0), pid, 1, "") == []
    ensures LeaveEvents(env, Single(gid, pid), pid, Disconnect, "") == []
  {
    assert Copies(pid, 1) == [pid];
    assert Init([pid]) == [] && Without([pid], pid) == [];
  }

  lemma {:induction false} SinglesLeaveSilently(env: Env, sessions: map<nat, Gathering>, order: seq<nat>, pid: PID)
    requires Singles(sessions)
    ensures DepartureEvents(env, sessions, order, pid, Disconnect) == []
  {
    if order == [] {
    } else {
      var gid := Last(order);
      SinglesLeaveSilently(env, sessions, Init(order), pid);
      hide LeaveEvents, Single;
      if gid in sessions { SingleFacts(env, gid, sessions[gid].info.ownerPID); }
    }
  }

  /** The store after a registration: the caller's gatherings are gone, and its new one has the next ID. */
  function Registered(s: State, pid: PID): State {
    var others := map gid | gid in s.sessions && s.sessions[gid].info.ownerPID != pid :: s.sessions[gid];
    State(others[s.nextGatheringID := Single(s.nextGatheringID, pid)], U32(s.nextGatheringID + 1), s.log)
  }

  lemma SinglesScrub(env: Env, s: State, pid: PID)
    requires Inv(s) && Singles(s.sessions)
    ensures Scrubbed(s.sessions, pid)
            == map gid | gid in s.sessions && s.sessions[gid].info.ownerPID != pid :: s.sessions[gid]
  {
    hide Single, Left, Consistent;
    forall gid | gid in s.sessions && s.sessions[gid].info.ownerPID != pid
      ensures Left(s.sessions[gid], pid) == s.sessions[gid]
    {
      SingleFacts(env, gid, s.sessions[gid].info.ownerPID);
      LeftByStranger(gid, s.sessions[gid], pid);
    }
  }

  lemma Registers(env: Env, s: State, pid: PID) returns (request: Request)
    requires Inv(s) && Singles(s.sessions)
    ensures request.RegisterGathering? && Possible(env, s, pid, request)
    ensures Step(env, s, pid, request) == Registered(s, pid)
  {
    hide Handle, Possible, ApplyAll, Scrubbed, Singles, Inv, JoinEvents, Single, Departures;
    var order := EnumerationExists(s.sessions.Keys);
    request := RegisterGathering(NEW_GATHERING, true, 0, 0, order);
    RegistrationMoves(env, s, pid, order);
    DisconnectClosedForm(env, s, order, pid, Disconnect);
    SinglesLeaveSilently(env, s.sessions, order, pid);
    SinglesScrub(env, s, pid);
    hide Enumerates;
    var t := s.(sessions := Scrubbed(s.sessions, pid));
    OpenOne(env, t, pid);
    ApplyAllSnoc(env, s, Departures(order, pid, Disconnect), Open(NEW_GATHERING, pid, 1, "", 0, 0));
    hide Apply;
  }

  lemma OpenOne(env: Env, t: State, pid: PID)
    ensures var gid := t.nextGatheringID;
            Apply(env, t, Open(NEW_GATHERING, pid, 1, "", 0, 0))
            == State(t.sessions[gid := Single(gid, pid)], U32(gid + 1), t.log)
  {
    SingleFacts(env, t.nextGatheringID, pid);
    hide Joined, Opened, JoinEvents;
  }

  /** The victim's gathering 1, and the caller's n-th creation. */
  function After(n: nat): State
    requires n > 0
  {
    var first := map[1 := Single(1, VICTIM)];
    State(if n == 1 then first else first[U32(n) := Single(U32(n), CALLER)], U32(n + 1), [])
  }

  lemma IDsOf(n: nat)
    requires 0 < n <= TWO32
    ensures U32(n) == 1 <==> n == 1
    ensures U32(U32(n) + 1) == U32(n + 1)
  {
    if n < TWO32 { Remainder(n, 0, n); } else { Remainder(n, 1, 0); Remainder(n + 1, 1, 1); }
  }

  lemma OneMoreRegistration(n: nat)
    requires 0 < n < TWO32
    ensures Singles(After(n).sessions) && Registered(After(n), CALLER) == After(n + 1)
  {
    IDsOf(n);
    IDsOf(n + 1);
    var owner1, owner2 := Single(1, VICTIM).info.ownerPID, Single(U32(n), CALLER).info.ownerPID;
    assert owner1 == VICTIM && owner2 == CALLER;
    hide Single, U32;
    assert Registered(After(n), CALLER).sessions == After(n + 1).sessions;
  }

  /** The caller registers until n gatherings have been created in all. */
  lemma {:induction false} Registrations(env: Env, n: nat) returns (calls: seq<Call>)
    requires 0 < n <= TWO32
    ensures Reachable(env, calls) && Final(env, calls) == After(n)
  {
    hide Step, Possible, After, Registered;
    var before: seq<Call>, pid := [], VICTIM;
    if n == 1 {
      FirstRegistration();
    } else {
      before := Registrations(env, n - 1);
      pid := CALLER;
      OneMoreRegistration(n - 1);
    }
    RunKeepsInv(env, before);
    var s := Final(env, before);
    hide Reachable, Final, Inv;
    var request := Registers(env, s, pid);
    OneMoreCall(env, before, Call(pid, request));
    calls := before + [Call(pid, request)];
  }

  lemma FirstRegistration()
    ensures Singles(Gatherings.EMPTY.sessions) && Registered(Gatherings.EMPTY, VICTIM) == After(1)
  {
    hide Single;
  }

  /** A live gathering of the victim gives way to one of the caller, and no event tells anybody. */
  ghost predicate Replaces(before: State, after: State, gid: nat) {
    && gid in before.sessions && before.sessions[gid].info.ownerPID == VICTIM
    && before.sessions[gid].participants == [VICTIM]
    && gid in after.sessions && after.sessions[gid].info.ownerPID == CALLER
    && after.sessions[gid].participants == [CALLER]
    && after.log == before.log
  }

  /** Once the counter has wrapped, a registration can replace a live gathering that is not its caller's. */
  lemma LiveGatheringCanBeReplaced(env: Env)
    ensures exists calls: seq<Call>, request: Request ::
              && Reachable(env, calls) && Possible(env, Final(env, calls), CALLER, request)
              && request.RegisterGathering?
              && Replaces(Final(env, calls), Step(env, Final(env, calls), CALLER, request), 1)
  {
    var n: nat := TWO32;
    var calls := Registrations(env, n);
    RunKeepsInv(env, calls);
    LastRegistration(env);
    hide Reachable, Final, Step, Possible, Inv, Registered, After, Replaces;
    var request := Registers(env, Final(env, calls), CALLER);
  }

  lemma LastRegistration(env: Env)
    ensures Singles(After(TWO32).sessions) && Replaces(After(TWO32), Registered(After(TWO32), CALLER), 1)
  {
    Remainder(TWO32, 1, 0);
    Remainder(TWO32 + 1, 1, 1);
    SingleFacts(env, 1, VICTIM);
    SingleFacts(env, 1, CALLER);
    SingleFacts(env, 0, CALLER);
    hide Single, U32;
  }
}
