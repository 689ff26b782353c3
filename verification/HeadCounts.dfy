/** Head counts over runs: which players stand for which console, and the participant limit. */
module HeadCounts {
  import opened Common
  import opened Gatherings
  import opened Handlers
  import opened Invariants
  import opened Runs

  // ---- Local players ----------------------------------------------------------------------------

  ghost predicate BlockBetween(participants: seq<PID>, before: seq<PID>, pid: PID, n: nat, after: seq<PID>) {
    participants == before + Copies(pid, n) + after && pid !in before && pid !in after
  }

  /** The copies of pid form one contiguous block of n. */
  ghost predicate Block(participants: seq<PID>, pid: PID, n: nat) {
    exists before, after :: BlockBetween(participants, before, pid, n, after)
  }

  lemma BlockCount(participants: seq<PID>, pid: PID, n: nat)
    requires Block(participants, pid, n)
    ensures Count(participants, pid) == n
  {
    var before, after :| BlockBetween(participants, before, pid, n, after);
    CountConcat(before + Copies(pid, n), after, pid);
    CountConcat(before, Copies(pid, n), pid);
    CopiesCount(pid, n, pid);
    CountPositive(before, pid);
    CountPositive(after, pid);
  }

  lemma JoinedBlocks(participants: seq<PID>, pid: PID, heads: nat, p: PID, n: nat)
    requires pid !in participants
    ensures Block(participants + Copies(pid, heads), pid, heads)
    ensures p != pid && Block(participants, p, n) ==> Block(participants + Copies(pid, heads), p, n)
  {
    CopiesFacts(pid, heads);
    assert BlockBetween(participants + Copies(pid, heads), participants, pid, heads, []);
    if p != pid && Block(participants, p, n) {
      var before, after :| BlockBetween(participants, before, p, n, after);
      assert BlockBetween(participants + Copies(pid, heads), before, p, n, after + Copies(pid, heads));
    }
  }

  lemma {:induction false} WithoutCopies(p: PID, n: nat, pid: PID)
    requires p != pid
    ensures Without(Copies(p, n), pid) == Copies(p, n)
  {
    if n == 0 {
    } else {
      WithoutCopies(p, n - 1, pid);
      assert Init(Copies(p, n)) == Copies(p, n - 1);
    }
  }

  lemma LeftBlocks(participants: seq<PID>, pid: PID, p: PID, n: nat)
    requires p != pid && Block(participants, p, n)
    ensures Block(Without(participants, pid), p, n)
  {
    var before, after :| BlockBetween(participants, before, p, n, after);
    WithoutConcat(before + Copies(p, n), after, pid);
    WithoutConcat(before, Copies(p, n), pid);
    WithoutCopies(p, n, pid);
    WithoutFacts(before, pid);
    WithoutFacts(after, pid);
    assert BlockBetween(Without(participants, pid), Without(before, pid), p, n, Without(after, pid));
  }

  /** How many heads pid brings when this is the move that lets it into the gathering. */
  function Arrival(s: State, move: Move, gid: nat, pid: PID): Option<UInt16> {
    match move
    case Admit(g, p, heads, _) => if g == gid && p == pid then Some(heads) else None
    case Open(_, p, heads, _, _, _) => if s.nextGatheringID == gid && p == pid then Some(heads) else None
    case _ => None
  }

  /** What is known about pid's block before a move, known or new after it. */
  lemma MoveKeepsBlock(env: Env, s: State, move: Move, gid: nat, pid: PID, n: nat)
    requires Legal(s, move)
    requires gid in s.sessions && pid in s.sessions[gid].participants ==> Block(s.sessions[gid].participants, pid, n)
    requires gid in Apply(env, s, move).sessions && pid in Apply(env, s, move).sessions[gid].participants
    ensures Arrival(s, move, gid, pid).None? ==> gid in s.sessions && pid in s.sessions[gid].participants
    ensures Block(Apply(env, s, move).sessions[gid].participants, pid,
                  if Arrival(s, move, gid, pid).Some? then Arrival(s, move, gid, pid).value else n)
  {
    hide JoinEvents, LeaveEvents, U32;
    match move
    case Leave(g, p, kind, message) =>
      if g == gid && p in s.sessions[g].participants {
        WithoutFacts(s.sessions[g].participants, p);
        LeftBlocks(s.sessions[g].participants, p, pid, n);
      }
    case Admit(g, p, heads, message) =>
      if g == gid {
        CopiesFacts(p, heads);
        JoinedBlocks(s.sessions[g].participants, p, heads, pid, n);
      }
    case Open(request, p, heads, message, key, now) =>
      if s.nextGatheringID == gid {
        CopiesFacts(p, heads);
        JoinedBlocks([], p, heads, pid, n);
      }
    case _ =>
  }

  /** The number of heads pid brought to the gathering when it last joined. */
  ghost function Brought(env: Env, calls: seq<Call>, gid: nat, pid: PID): UInt16
    requires Reachable(env, calls)
  {
    if calls == [] then 0
    else StepBrought(env, Final(env, Init(calls)), Last(calls).pid, Last(calls).request, gid, pid,
                     Brought(env, Init(calls), gid, pid))
  }

  ghost function StepBrought(env: Env, s: State, caller: PID, request: Request, gid: nat, pid: PID, n: UInt16): UInt16
    requires Possible(env, s, caller, request)
  {
    var moves := Handle(env, s, caller, request).moves;
    if moves == [] then n
    else
      var arrival := Arrival(ApplyAll(env, s, Init(moves)), Last(moves), gid, pid);
      if arrival.Some? then arrival.value else n
  }

  lemma {:induction false} LeavesKeepBlock(env: Env, s: State, moves: seq<Move>, gid: nat, pid: PID, n: nat)
    requires OnlyLeaves(moves)
    requires gid in s.sessions && pid in s.sessions[gid].participants ==> Block(s.sessions[gid].participants, pid, n)
    ensures var t := ApplyAll(env, s, moves);
            gid in t.sessions && pid in t.sessions[gid].participants ==> Block(t.sessions[gid].participants, pid, n)
  {
    if moves == [] {
    } else {
      hide Block;
      LeavesKeepBlock(env, s, Init(moves), gid, pid, n);
      var t := ApplyAll(env, s, moves);
      if gid in t.sessions && pid in t.sessions[gid].participants {
        MoveKeepsBlock(env, ApplyAll(env, s, Init(moves)), Last(moves), gid, pid, n);
      }
    }
  }

  lemma MovesKeepBlock(env: Env, s: State, moves: seq<Move>, gid: nat, pid: PID, n: nat)
    requires AllLegal(env, s, moves) && Shaped(moves) && moves != []
    requires gid in s.sessions && pid in s.sessions[gid].participants ==> Block(s.sessions[gid].participants, pid, n)
    ensures var t := ApplyAll(env, s, moves);
            var arrival := Arrival(ApplyAll(env, s, Init(moves)), Last(moves), gid, pid);
            gid in t.sessions && pid in t.sessions[gid].participants ==>
              Block(t.sessions[gid].participants, pid, if arrival.Some? then arrival.value else n)
  {
    hide Block, Apply;
    var t := ApplyAll(env, s, Init(moves));
    if OnlyLeaves(Init(moves)) {
      LeavesKeepBlock(env, s, Init(moves), gid, pid, n);
    } else {
      assert Init(moves) == [moves[0]] && Init([moves[0]]) == [];
      if gid in t.sessions && pid in t.sessions[gid].participants {
        MoveKeepsBlock(env, s, moves[0], gid, pid, n);
      }
    }
    var u := ApplyAll(env, s, moves);
    if gid in u.sessions && pid in u.sessions[gid].participants {
      MoveKeepsBlock(env, t, Last(moves), gid, pid, n);
    }
  }

  /** In every run each participant has one block of heads, as long as the count it last joined with. */
  lemma {:induction false} RunKeepsBlocks(env: Env, calls: seq<Call>, gid: nat, pid: PID)
    requires Reachable(env, calls)
    requires gid in Final(env, calls).sessions && pid in Final(env, calls).sessions[gid].participants
    ensures Block(Final(env, calls).sessions[gid].participants, pid, Brought(env, calls, gid, pid))
  {
    hide Handle, Block, Possible;
    if calls == [] {
    } else {
      var s := Final(env, Init(calls));
      var caller, request := Last(calls).pid, Last(calls).request;
      var moves := Handle(env, s, caller, request).moves;
      if gid in s.sessions && pid in s.sessions[gid].participants {
        RunKeepsBlocks(env, Init(calls), gid, pid);
      }
      RunKeepsInv(env, Init(calls));
      HandlersAreLegal(env, s, caller, request);
      HandlersAreShaped(env, s, caller, request);
      if moves != [] {
        MovesKeepBlock(env, s, moves, gid, pid, Brought(env, Init(calls), gid, pid));
      }
    }
  }

  // ---- Participant details ----------------------------------------------------------------------

  /** One line of getDetailedParticipants: a console and its 16-bit number of players. */
  datatype ParticipantDetails = ParticipantDetails(pid: PID, participants: UInt16)

  function Details(distinct: seq<PID>, participants: seq<PID>): seq<ParticipantDetails> {
    if distinct == [] then []
    else Details(Init(distinct), participants)
         + [ParticipantDetails(Last(distinct), U16(Count(participants, Last(distinct))))]
  }

  function Players(details: seq<ParticipantDetails>): nat {
    if details == [] then 0 else Players(Init(details)) + Last(details).participants
  }

  /** The heads that belong to one of the given consoles. */
  function Belonging(participants: seq<PID>, distinct: set<PID>): nat {
    if participants == [] then 0
    else Belonging(Init(participants), distinct) + if Last(participants) in distinct then 1 else 0
  }

  lemma {:induction false} BelongingGrows(participants: seq<PID>, distinct: set<PID>, pid: PID)
    requires pid !in distinct
    ensures Belonging(participants, distinct + {pid}) == Belonging(participants, distinct) + Count(participants, pid)
  {
    if participants == [] {
    } else {
      BelongingGrows(Init(participants), distinct, pid);
    }
  }

  lemma {:induction false} BelongingBounds(participants: seq<PID>, distinct: set<PID>)
    ensures Belonging(participants, distinct) <= |participants|
    ensures distinct == {} ==> Belonging(participants, distinct) == 0
    ensures (forall p :: p in participants ==> p in distinct) ==> Belonging(participants, distinct) == |participants|
  {
    if participants == [] {
    } else {
      BelongingBounds(Init(participants), distinct);
      assert participants == Init(participants) + [Last(participants)];
      assert (forall p :: p in participants ==> p in distinct)
        ==> forall p :: p in Init(participants) ==> p in distinct;
    }
  }

  lemma U16AtMost(n: nat)
    ensures U16(n) <= n && (U16(n) == n <==> n < TWO16)
  {
  }

  lemma {:induction false} PlayersBelong(distinct: seq<PID>, participants: seq<PID>)
    requires NoDuplicates(distinct)
    ensures Players(Details(distinct, participants)) <= Belonging(participants, SetOf(distinct))
    ensures Players(Details(distinct, participants)) == Belonging(participants, SetOf(distinct))
            <==> forall p :: p in distinct ==> Count(participants, p) < TWO16
  {
    if distinct == [] {
      BelongingBounds(participants, SetOf(distinct));
    } else {
      var pid := Last(distinct);
      LastIsNew(distinct);
      PlayersBelong(Init(distinct), participants);
      BelongingGrows(participants, SetOf(Init(distinct)), pid);
      U16AtMost(Count(participants, pid));
      assert Init(Details(distinct, participants)) == Details(Init(distinct), participants);
      assert distinct == Init(distinct) + [pid];
    }
  }

  /** The reported numbers add up to the head count exactly when no console has 65536 players or more. */
  lemma DetailsAddUp(participants: seq<PID>)
    ensures Players(Details(Dedup(participants), participants)) == |participants|
            <==> forall p :: p in participants ==> Count(participants, p) < TWO16
  {
    DedupFacts(participants);
    PlayersBelong(Dedup(participants), participants);
    BelongingBounds(participants, SetOf(Dedup(participants)));
  }

  /** In every run the participant details account for every head. */
  lemma RunDetailsAddUp(env: Env, calls: seq<Call>, gid: nat)
    requires Reachable(env, calls) && gid in Final(env, calls).sessions
    ensures var participants := Final(env, calls).sessions[gid].participants;
            Players(Details(Dedup(participants), participants)) == |participants|
  {
    hide Handle, Step, Possible, Block;
    var participants := Final(env, calls).sessions[gid].participants;
    forall pid | pid in participants ensures Count(participants, pid) < TWO16 {
      RunKeepsBlocks(env, calls, gid, pid);
      BlockCount(participants, pid, Brought(env, calls, gid, pid));
    }
    DetailsAddUp(participants);
  }

  // ---- The participant limit --------------------------------------------------------------------

  /** By how many heads a gathering exceeds its limit; 0 means unlimited. */
  function Excess(g: Gathering): nat {
    if g.info.maximumParticipants == 0 || |g.participants| <= g.info.maximumParticipants then 0
    else |g.participants| - g.info.maximumParticipants
  }

  /** The capacity test compares the true sum with the limit exactly when the 32-bit sum does not wrap to below it. */
  lemma FullMeansFull(g: Gathering, heads: UInt16)
    ensures var limit, sum := g.info.maximumParticipants, |g.participants| + heads;
            && ((Full(g, heads) <==> limit != 0 && sum > limit) <==> limit == 0 || sum <= limit || U32(sum) > limit)
            && (sum < TWO32 ==> (Full(g, heads) <==> limit != 0 && sum > limit))
  {
    var n: nat := |g.participants|;
    assert U32(U32(n) + heads) == U32(n + heads);
  }

  /** A change of the record that brings in another limit, below the heads already there. */
  predicate Cuts(s: State, move: Move, gid: nat) {
    && move.Revise? && move.gid == gid && gid in s.sessions
    && move.info.maximumParticipants != s.sessions[gid].info.maximumParticipants
    && Excess(s.sessions[gid].(info := move.info)) > 0
  }

  /** The head count leaves room for one more 16-bit join below 2^32, or there is no limit to exceed. */
  ghost predicate Roomy(s: State, gid: nat) {
    gid in s.sessions && s.sessions[gid].info.maximumParticipants != 0 ==>
      |s.sessions[gid].participants| + TWO16 <= TWO32
  }

  function ExcessOf(s: State, gid: nat): nat { if gid in s.sessions then Excess(s.sessions[gid]) else 0 }

  /** The move is a join of the gathering. */
  predicate Enters(s: State, move: Move, gid: nat) {
    (move.Admit? && move.gid == gid) || (move.Open? && gid == s.nextGatheringID)
  }

  /** A join ends at or below a nonzero limit, and only cutting the limit makes a gathering more overfull. */
  lemma MoveKeepsExcess(env: Env, s: State, move: Move, gid: nat)
    requires Legal(s, move) && !Cuts(s, move, gid) && Roomy(s, gid)
    ensures ExcessOf(Apply(env, s, move), gid) <= ExcessOf(s, gid)
    ensures Enters(s, move, gid) ==> ExcessOf(Apply(env, s, move), gid) == 0
  {
    hide JoinEvents, LeaveEvents;
    match move
    case Leave(g, p, kind, message) =>
      if g == gid && gid in s.sessions && p in s.sessions[g].participants {
        WithoutFacts(s.sessions[g].participants, p);
      }
    case Admit(g, p, heads, message) =>
      if g == gid {
        CopiesFacts(p, heads);
        if s.sessions[g].info.maximumParticipants != 0 { FullMeansFull(s.sessions[g], heads); }
      }
    case Open(request, p, heads, message, key, now) => CopiesFacts(p, heads);
    case _ =>
  }

  lemma {:induction false} LeavesShrink(env: Env, s: State, moves: seq<Move>, gid: nat)
    requires OnlyLeaves(moves) && Roomy(s, gid)
    ensures var t := ApplyAll(env, s, moves); Roomy(t, gid) && ExcessOf(t, gid) <= ExcessOf(s, gid)
    ensures var t := ApplyAll(env, s, moves); gid in t.sessions ==> gid in s.sessions
  {
    if moves == [] {
    } else {
      LeavesShrink(env, s, Init(moves), gid);
      var t := ApplyAll(env, s, Init(moves));
      MoveKeepsExcess(env, t, Last(moves), gid);
      if Last(moves).gid in t.sessions { WithoutFacts(t.sessions[Last(moves).gid].participants, Last(moves).pid); }
    }
  }

  /** No move of the list cuts the gathering's limit. */
  ghost predicate NoCuts(env: Env, s: State, moves: seq<Move>, gid: nat) {
    moves != [] ==> NoCuts(env, s, Init(moves), gid) && !Cuts(ApplyAll(env, s, Init(moves)), Last(moves), gid)
  }

  lemma MovesKeepExcess(env: Env, s: State, moves: seq<Move>, gid: nat)
    requires AllLegal(env, s, moves) && Shaped(moves) && NoCuts(env, s, moves, gid) && Roomy(s, gid)
    ensures ExcessOf(ApplyAll(env, s, moves), gid) <= ExcessOf(s, gid)
    ensures moves != [] && Enters(s, Last(moves), gid) ==> ExcessOf(ApplyAll(env, s, moves), gid) == 0
  {
    if moves != [] {
      hide Apply, Cuts;
      if OnlyLeaves(Init(moves)) {
        LeavesShrink(env, s, Init(moves), gid);
        LeavesAreLegal(env, s, Init(moves));
      } else {
        assert Init(moves) == [moves[0]] && Init([moves[0]]) == [];
        MoveKeepsExcess(env, s, moves[0], gid);
        SendKeepsSessions(env, ApplyAll(env, s, Init(moves)), Last(moves));
        return;
      }
      MoveKeepsExcess(env, ApplyAll(env, s, Init(moves)), Last(moves), gid);
    }
  }

  lemma SendKeepsSessions(env: Env, s: State, move: Move)
    requires move.Send?
    ensures Apply(env, s, move).sessions == s.sessions
  {
  }

  /** The one request that can change a gathering's limit, accepted from its owner, leaves the limit or names one
      that the heads already there meet. */
  predicate LimitFits(s: State, pid: PID, request: Request, gid: nat) {
    && request.UpdateSession? && request.session.id == gid && gid in s.sessions && s.sessions[gid].info.ownerPID == pid
    && request.SettingsAllowed()
    ==>
      || request.session.maximumParticipants == s.sessions[gid].info.maximumParticipants
      || request.session.maximumParticipants == 0
      || |s.sessions[gid].participants| <= request.session.maximumParticipants
  }

  ghost predicate NoRevisions(moves: seq<Move>) {
    forall i :: 0 <= i < |moves| ==> !moves[i].Revise?
  }

  lemma {:induction false} WithoutRevisionsNoCuts(env: Env, s: State, moves: seq<Move>, gid: nat)
    requires NoRevisions(moves)
    ensures NoCuts(env, s, moves, gid)
  {
    if moves == [] {
    } else {
      WithoutRevisionsNoCuts(env, s, Init(moves), gid);
    }
  }

  lemma CreationsReviseNothing(env: Env, s: State, pid: PID, request: Request)
    requires Possible(env, s, pid, request)
    requires LeavesAll(request)
    ensures NoRevisions(Handle(env, s, pid, request).moves)
  {
    hide ApplyAll, Choose, JoinError, Opened, Joined;
    DeparturesAreLeaves(request.order, pid, Disconnect);
  }

  lemma FewMovesNoCuts(env: Env, s: State, moves: seq<Move>, gid: nat)
    requires moves == [] || !Cuts(s, moves[0], gid)
    requires |moves| <= 1 || (|moves| == 2 && moves[1].Send?)
    ensures NoCuts(env, s, moves, gid)
  {
    assert NoCuts(env, s, [], gid);
    if |moves| > 0 {
      assert moves[..1] == [moves[0]] && Init(moves[..1]) == [];
      assert |moves| == 1 ==> moves == moves[..1];
      assert |moves| == 2 ==> Init(moves) == moves[..1];
    }
  }

  lemma UpdatesFit(s: State, pid: PID, request: Request, gid: nat)
    requires request.UpdateSession? && LimitFits(s, pid, request, gid)
    ensures var moves := UpdateEffect(s, pid, request.session, request.SettingsAllowed()).moves;
            moves == [] || !Cuts(s, moves[0], gid)
  {
  }

  lemma OthersKeepLimits(env: Env, s: State, pid: PID, request: Request, gid: nat)
    requires Possible(env, s, pid, request) && !request.UpdateSession?
    requires !LeavesAll(request)
    ensures var moves := Handle(env, s, pid, request).moves;
            && (moves == [] || !Cuts(s, moves[0], gid)) && (|moves| <= 1 || (|moves| == 2 && moves[1].Send?))
  {
    hide ApplyAll, Excess;
  }

  lemma HandlersCutNothing(env: Env, s: State, pid: PID, request: Request, gid: nat)
    requires Possible(env, s, pid, request) && LimitFits(s, pid, request, gid)
    ensures NoCuts(env, s, Handle(env, s, pid, request).moves, gid)
  {
    hide ApplyAll, Apply, NoCuts, Cuts, LimitFits;
    var moves := Handle(env, s, pid, request).moves;
    if LeavesAll(request) {
      CreationsReviseNothing(env, s, pid, request);
      WithoutRevisionsNoCuts(env, s, moves, gid);
    } else if request.UpdateSession? {
      UpdatesFit(s, pid, request, gid);
      FewMovesNoCuts(env, s, moves, gid);
    } else {
      OthersKeepLimits(env, s, pid, request, gid);
      FewMovesNoCuts(env, s, moves, gid);
    }
  }

  /** The request put its caller into the gathering, and says so. */
  predicate JoinedBy(request: Request, reply: Reply, gid: nat) {
    || (request.JoinMatchmakeSession? && request.gid == gid && reply.SessionKey?)
    || (request.ParticipateIn? && request.gid == gid && reply.Acknowledged?)
    || ((request.CreateMatchmakeSession? || request.RegisterGathering? || request.AutoMatchmake?)
        && reply.Session? && reply.info.id == gid)
  }

  lemma CreationsEnter(env: Env, t: State, departures: seq<Move>, pid: PID, session: MatchmakeSession, count: UInt16,
                       message: string, key: nat, now: nat)
    ensures var effect := CreateEffect(env, t, departures, pid, session, count, message, key, now);
            effect.reply.Session? ==>
              effect.moves != [] && Last(effect.moves).Open? && effect.reply.info.id == t.nextGatheringID
  {
  }

  lemma AutoEnters(env: Env, s: State, pid: PID, request: Request)
    requires request.AutoMatchmake? && Possible(env, s, pid, request)
    ensures var effect := Handle(env, s, pid, request);
            effect.reply.Session? ==> effect.moves != [] && Enters(s, Last(effect.moves), effect.reply.info.id)
  {
    hide ApplyAll, Choose, CreateEffect, JoinError;
    var departures := Departures(request.order, pid, Disconnect);
    DeparturesAreLeaves(request.order, pid, Disconnect);
    LeavesAreLegal(env, s, departures);
    CreationsEnter(env, ApplyAll(env, s, departures), departures, pid, request.session, 1, request.message, request.key,
                   request.now);
  }

  lemma JoinsEnter(env: Env, s: State, pid: PID, request: Request, gid: nat)
    requires Possible(env, s, pid, request) && JoinedBy(request, Handle(env, s, pid, request).reply, gid)
    ensures var moves := Handle(env, s, pid, request).moves; moves != [] && Enters(s, Last(moves), gid)
  {
    hide ApplyAll, Choose, CreateEffect, JoinError;
    if request.AutoMatchmake? {
      AutoEnters(env, s, pid, request);
    } else if request.CreateMatchmakeSession? || request.RegisterGathering? {
      var departures := Departures(request.order, pid, Disconnect);
      DeparturesAreLeaves(request.order, pid, Disconnect);
      LeavesAreLegal(env, s, departures);
      var count := if request.RegisterGathering? then 1 else request.count;
      var message := if request.RegisterGathering? then "" else request.message;
      CreationsEnter(env, ApplyAll(env, s, departures), departures, pid, request.session, count, message, request.key,
                     request.now);
    }
  }

  /** Over one request, below the wrap: a join ends within the limit, and an overfull gathering never gets fuller
      unless its owner cuts the limit. */
  lemma StepKeepsExcess(env: Env, s: State, pid: PID, request: Request, gid: nat)
    requires Inv(s) && Possible(env, s, pid, request) && LimitFits(s, pid, request, gid) && Roomy(s, gid)
    ensures ExcessOf(Step(env, s, pid, request), gid) <= ExcessOf(s, gid)
    ensures JoinedBy(request, Handle(env, s, pid, request).reply, gid) ==>
              ExcessOf(Step(env, s, pid, request), gid) == 0
  {
    HandlersAreLegal(env, s, pid, request);
    HandlersAreShaped(env, s, pid, request);
    HandlersCutNothing(env, s, pid, request, gid);
    if JoinedBy(request, Handle(env, s, pid, request).reply, gid) { JoinsEnter(env, s, pid, request, gid); }
    hide Handle, JoinedBy, Enters;
    MovesKeepExcess(env, s, Handle(env, s, pid, request).moves, gid);
  }

  /** Every settings request of the run that takes effect on the gathering fits. */
  ghost predicate LimitsFit(env: Env, calls: seq<Call>, gid: nat)
    requires Reachable(env, calls)
  {
    calls != [] ==>
      && LimitsFit(env, Init(calls), gid)
      && LimitFits(Final(env, Init(calls)), Last(calls).pid, Last(calls).request, gid)
  }

  /** In every state of the run the gathering, while it is live, holds no more heads than a nonzero limit. */
  ghost predicate AlwaysWithin(env: Env, calls: seq<Call>, gid: nat)
    requires Reachable(env, calls)
  {
    ExcessOf(Final(env, calls), gid) == 0 && (calls != [] ==> AlwaysWithin(env, Init(calls), gid))
  }

  /** A gathering stays within its limit throughout a run exactly when no owner ever cuts the limit below its heads. */
  lemma {:induction false} RunStaysWithinLimits(env: Env, calls: seq<Call>, gid: nat)
    requires Reachable(env, calls)
    ensures AlwaysWithin(env, calls, gid) <==> LimitsFit(env, calls, gid)
  {
    if calls == [] {
    } else {
      var s := Final(env, Init(calls));
      var pid, request := Last(calls).pid, Last(calls).request;
      RunStaysWithinLimits(env, Init(calls), gid);
      RunKeepsInv(env, Init(calls));
      if AlwaysWithin(env, Init(calls), gid) {
        if LimitFits(s, pid, request, gid) {
          hide Handle, Possible, LimitFits, JoinedBy;
          StepKeepsExcess(env, s, pid, request, gid);
        } else {
          CutShows(env, s, pid, request, gid);
        }
      }
    }
  }

  /** A settings request that does not fit leaves the gathering overfull. */
  lemma CutShows(env: Env, s: State, pid: PID, request: Request, gid: nat)
    requires Inv(s) && Possible(env, s, pid, request) && !LimitFits(s, pid, request, gid)
    ensures ExcessOf(Step(env, s, pid, request), gid) > 0
  {
    var move := Revise(gid, Updated(s.sessions[gid], request.session), s.sessions[gid].url);
    OneMove(env, s, move);
    assert Handle(env, s, pid, request).moves == [move];
  }
}
