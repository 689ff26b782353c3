/** What an accepted request leaves in a gathering's record, and whom it tells. */
module Records {
  import opened Common
  import opened Gatherings
  import opened Handlers
  import opened Invariants
  import opened Runs
  import opened Authority
  import opened Views

  // ---- Creating ---------------------------------------------------------------------------------

  /** The settings that the server takes: six attributes, and nothing too long or too high. */
  predicate Sound(session: MatchmakeSession, fits: bool) {
    && fits && |session.attributes| == 6 && session.progressScore <= 100
    && |session.userPassword| <= 32 && |session.applicationBuffer| <= 512
  }

  /** A new gathering as described, with the creator's console as its owner, its host and its only players. */
  ghost predicate Fresh(g: Gathering, session: MatchmakeSession, gid: nat, pid: PID, count: UInt16, key: nat,
                        now: nat)
  {
    var heads := if count == 0 then 1 else count;
    && g.info == session.(id := gid, ownerPID := pid, hostPID := pid, sessionKey := key, startedTime := now,
                     userPasswordEnabled := session.userPassword != "", systemPasswordEnabled := false,
                     participationCount := heads)
    && |g.participants| == heads && (forall p :: p in g.participants ==> p == pid) && g.url == ""
  }

  lemma JoinedIsFresh(session: MatchmakeSession, gid: nat, pid: PID, count: UInt16, key: nat, now: nat)
    ensures Fresh(Joined(Opened(session, gid, pid, key, now), pid, Heads(count)), session, gid, pid, count, key, now)
  {
    CopiesFacts<PID>(pid, Heads(count));
    hide Copies;
  }

  lemma OpenStands(env: Env, s: State, departures: seq<Move>, move: Move)
    requires OnlyLeaves(departures) && move.Open?
    ensures var t, gid := ApplyAll(env, s, departures + [move]), s.nextGatheringID;
            && gid in t.sessions
            && t.sessions[gid] == Joined(Opened(move.request, gid, move.pid, move.key, move.now), move.pid, move.heads)
  {
    hide Opened, Joined, JoinEvents;
    LeavesAreLegal(env, s, departures);
    ApplyAllSnoc(env, s, departures, move);
  }

  lemma CreateEffectDecides(env: Env, t: State, departures: seq<Move>, pid: PID, session: MatchmakeSession,
                            count: UInt16, message: string, key: nat, now: nat)
    ensures CreateEffect(env, t, departures, pid, session, count, message, key, now)
            == if 0 < session.maximumParticipants < (if count == 0 then 1 else count)
               then Effect(departures + [Burn], Failed(SessionFull))
               else Effect(departures + [Open(session, pid, Heads(count), message, key, now)],
                           Session(Joined(Opened(session, t.nextGatheringID, pid, key, now), pid, Heads(count)).info))
  {
    hide Joined;
  }

  /** What creating in an emptied store comes to. */
  lemma CreationStands(env: Env, s: State, departures: seq<Move>, pid: PID, session: MatchmakeSession, count: UInt16,
                       message: string, key: nat, now: nat)
    requires OnlyLeaves(departures)
    ensures var effect := CreateEffect(env, ApplyAll(env, s, departures), departures, pid, session, count, message, key,
                                       now);
            var t, gid := ApplyAll(env, s, effect.moves), s.nextGatheringID;
            if 0 < session.maximumParticipants < (if count == 0 then 1 else count)
            then effect.reply == Failed(SessionFull) && gid !in t.sessions
            else
              && gid in t.sessions && effect.reply == Session(t.sessions[gid].info)
              && Fresh(t.sessions[gid], session, gid, pid, count, key, now)
  {
    hide CreateEffect, Fresh, Joined, Opened;
    LeavesAreLegal(env, s, departures);
    CreateEffectDecides(env, ApplyAll(env, s, departures), departures, pid, session, count, message, key, now);
    OpenStands(env, s, departures, Open(session, pid, Heads(count), message, key, now));
    ApplyAllSnoc(env, s, departures, Burn);
    JoinedIsFresh(session, s.nextGatheringID, pid, count, key, now);
    hide ApplyAll, OnlyLeaves;
  }

  /** Creating succeeds exactly for sound settings and a party within the limit; what stands then is what was
      described. */
  lemma CreationGives(env: Env, s: State, pid: PID, request: Request)
    requires Possible(env, s, pid, request) && (request.CreateMatchmakeSession? || request.RegisterGathering?)
    ensures var reply, t := Handle(env, s, pid, request).reply, Step(env, s, pid, request);
            var session, gid := request.session, s.nextGatheringID;
            var count := if request.RegisterGathering? then 1 else request.count;
            if !Sound(session, request.fits) || (request.CreateMatchmakeSession? && |request.message| > 256)
            then reply == Failed(InvalidArgument) && t == s
            else if 0 < session.maximumParticipants < (if count == 0 then 1 else count)
            then reply == Failed(SessionFull) && gid !in t.sessions
            else
              && gid in t.sessions && reply == Session(t.sessions[gid].info)
              && Fresh(t.sessions[gid], session, gid, pid, count, request.key, request.now)
  {
    var count := if request.RegisterGathering? then 1 else request.count;
    var message := if request.RegisterGathering? then "" else request.message;
    DeparturesAreLeaves(request.order, pid, Disconnect);
    CreationStands(env, s, Departures(request.order, pid, Disconnect), pid, request.session, count, message,
                   request.key, request.now);
    assert ApplyAll(env, s, []) == s;
    hide ApplyAll, Departures, Possible, Fresh, CreateEffect;
  }

  // ---- Changing ---------------------------------------------------------------------------------

  /** Only this gathering's record changes, and nobody is told. */
  ghost predicate OnlyRecord(s: State, t: State, gid: nat, info: MatchmakeSession, url: string) {
    && t.sessions.Keys == s.sessions.Keys && gid in s.sessions && t.log == s.log
    && t.sessions[gid].info == info && t.sessions[gid].url == url
    && t.sessions[gid].participants == s.sessions[gid].participants
    && forall other :: other in s.sessions && other != gid ==> t.sessions[other] == s.sessions[other]
  }

  /** The owner's single-field requests, and when the server takes them. */
  predicate Takes(info: MatchmakeSession, mutation: Mutation) {
    match mutation
    case SetApplicationBuffer(buffer) => |buffer| <= 512
    case SetProgressScore(score) => score <= 100
    case SetAttributes(attributes) => |attributes| == |info.attributes|
    case SetAttribute(index, _) => index < |info.attributes|
    case _ => true
  }

  /** The field that was set reads back as set. */
  predicate ReadsBack(was: MatchmakeSession, now: MatchmakeSession, mutation: Mutation) {
    match mutation
    case SetOpen(open) => now == was.(openParticipation := open)
    case SetApplicationBuffer(buffer) => now == was.(applicationBuffer := buffer)
    case SetProgressScore(score) => now == was.(progressScore := score)
    case SetAttributes(attributes) => now == was.(attributes := attributes)
    case SetAttribute(index, value) =>
      && |now.attributes| == |was.attributes|
      && (forall i :: 0 <= i < |was.attributes| ==>
            now.attributes[i] == if i == index then value else was.attributes[i])
      && now == was.(attributes := now.attributes)
    case SetState(state) => now == was.(state := state)
  }

  /** A single-field request is taken exactly from the owner of a live gathering and within the bounds, and then that
      field reads back. */
  lemma MutationsReadBack(env: Env, s: State, pid: PID, gid: nat, mutation: Mutation)
    ensures var reply, t := Handle(env, s, pid, Mutate(gid, mutation)).reply, Step(env, s, pid, Mutate(gid, mutation));
            if gid in s.sessions && s.sessions[gid].info.ownerPID == pid && Takes(s.sessions[gid].info, mutation)
            then
              && reply == Acknowledged && gid in t.sessions
              && OnlyRecord(s, t, gid, t.sessions[gid].info, s.sessions[gid].url)
              && ReadsBack(s.sessions[gid].info, t.sessions[gid].info, mutation)
            else reply.Failed? && t == s
  {
    MutationMoves(s, pid, gid, mutation);
    var moves := MutateEffect(s, pid, gid, mutation).moves;
    assert ApplyAll(env, s, []) == s;
    if moves != [] { OneMove(env, s, moves[0]); }
    hide ApplyAll, MutateEffect, ReadsBack, Takes;
  }

  lemma MutationMoves(s: State, pid: PID, gid: nat, mutation: Mutation)
    ensures var effect := MutateEffect(s, pid, gid, mutation);
            if gid in s.sessions && s.sessions[gid].info.ownerPID == pid && Takes(s.sessions[gid].info, mutation)
            then
              && |effect.moves| == 1 && effect.moves[0].Revise? && effect.moves[0].gid == gid
              && effect.moves[0].url == s.sessions[gid].url && effect.reply == Acknowledged
              && ReadsBack(s.sessions[gid].info, effect.moves[0].info, mutation)
            else effect.reply.Failed? && effect.moves == []
  {
  }

  /** An update is taken exactly from the owner of a live gathering, and with checked settings only if they are sound.
      Then the settings are the given ones, and roles, key, time and count are what they were. */
  lemma UpdatesReadBack(env: Env, s: State, pid: PID, session: MatchmakeSession, checked: bool, fits: bool)
    requires Inv(s)
    ensures var request, gid := UpdateSession(session, checked, fits), session.id;
            var reply, t := Handle(env, s, pid, request).reply, Step(env, s, pid, request);
            if (checked ==> Sound(session, fits)) && gid in s.sessions && s.sessions[gid].info.ownerPID == pid
            then
              var was := s.sessions[gid].info;
              && reply == Acknowledged && gid in t.sessions
              && OnlyRecord(s, t, gid, t.sessions[gid].info, s.sessions[gid].url)
              && Settings(t.sessions[gid].info) == Settings(session)
              && t.sessions[gid].info == session.(ownerPID := was.ownerPID, hostPID := was.hostPID,
                                                  sessionKey := was.sessionKey, startedTime := was.startedTime,
                                                  participationCount := was.participationCount)
            else reply.Failed? && t == s
  {
    assert ApplyAll(env, s, []) == s;
    UpdateMoves(s, pid, session, checked, fits);
    var moves := UpdateEffect(s, pid, session, checked ==> ValidSession(session, fits)).moves;
    if moves != [] { OneMove(env, s, moves[0]); }
    hide ApplyAll, UpdateEffect, ValidSession, Sound;
  }

  lemma UpdateMoves(s: State, pid: PID, session: MatchmakeSession, checked: bool, fits: bool)
    requires Inv(s)
    ensures var effect := UpdateEffect(s, pid, session, checked ==> ValidSession(session, fits));
            if && (checked ==> Sound(session, fits)) && session.id in s.sessions
               && s.sessions[session.id].info.ownerPID == pid
            then
              var g := s.sessions[session.id];
              effect == Effect([Revise(session.id,
                                       session.(ownerPID := g.info.ownerPID, hostPID := g.info.hostPID,
                                                sessionKey := g.info.sessionKey, startedTime := g.info.startedTime,
                                                participationCount := g.info.participationCount),
                                       g.url)], Acknowledged)
            else effect.reply.Failed? && effect.moves == []
  {
  }

  /** Any participant, and nobody else, may become the host, and say where. */
  lemma HostsClaim(env: Env, s: State, pid: PID, gid: nat, url: string, request: Request)
    requires request in {LaunchSession(gid, url), UpdateSessionURL(gid, url), UpdateSessionHost(gid, false)}
    ensures var reply, t := Handle(env, s, pid, request).reply, Step(env, s, pid, request);
            if gid in s.sessions && pid in s.sessions[gid].participants
            then
              && reply == Acknowledged
              && OnlyRecord(s, t, gid, s.sessions[gid].info.(hostPID := pid),
                            if request.UpdateSessionHost? || (request.UpdateSessionURL? && url == "")
                            then s.sessions[gid].url else url)
            else reply.Failed? && t == s
  {
    assert ApplyAll(env, s, []) == s;
    var moves := Handle(env, s, pid, request).moves;
    if moves != [] { OneMove(env, s, moves[0]); }
    hide ApplyAll;
  }

  // ---- Telling ----------------------------------------------------------------------------------

  /** Each of these players, and nobody else, is a target, once. */
  ghost predicate Reaches(targets: seq<PID>, players: set<PID>) { NoDuplicates(targets) && SetOf(targets) == players }

  lemma DedupReaches(participants: seq<PID>)
    ensures Reaches(Dedup(participants), SetOf(participants))
  {
    DedupFacts(participants);
  }

  /** The gathering has a new owner, and all participants are told. */
  ghost predicate Passes(s: State, t: State, pid: PID, gid: nat, info: MatchmakeSession) {
    && gid in s.sessions && OnlyRecord(s, t.(log := s.log), gid, info, s.sessions[gid].url)
    && exists targets ::
         && t.log == s.log + [OwnershipChanged(pid, gid, info.ownerPID, targets)]
         && Reaches(targets, SetOf(s.sessions[gid].participants))
  }

  lemma PassingMoves(env: Env, s: State, pid: PID, gid: nat, info: MatchmakeSession)
    requires gid in s.sessions
    ensures var g := s.sessions[gid];
            Passes(s, ApplyAll(env, s, [Revise(gid, info, g.url),
                                        Send(OwnershipChanged(pid, gid, info.ownerPID, Dedup(g.participants)))]),
                   pid, gid, info)
  {
    var g := s.sessions[gid];
    var first, event := Revise(gid, info, g.url), OwnershipChanged(pid, gid, info.ownerPID, Dedup(g.participants));
    OneMove(env, s, first);
    ApplyAllSnoc(env, s, [first], Send(event));
    assert [first] + [Send(event)] == [first, Send(event)];
    DedupReaches(g.participants);
    hide Reaches, ApplyAll;
  }

  /** A participant becomes host and owner exactly where the gathering allows it. */
  lemma HostsTakeOver(env: Env, s: State, pid: PID, gid: nat)
    ensures var request := UpdateSessionHost(gid, true);
            var reply, t := Handle(env, s, pid, request).reply, Step(env, s, pid, request);
            if && gid in s.sessions && pid in s.sessions[gid].participants
               && s.sessions[gid].info.flags.changeOwnerByOtherHost
            then
              reply == Acknowledged && Passes(s, t, pid, gid, s.sessions[gid].info.(hostPID := pid, ownerPID := pid))
            else reply.Failed? && t == s
  {
    assert ApplyAll(env, s, []) == s;
    if gid in s.sessions { PassingMoves(env, s, pid, gid, s.sessions[gid].info.(hostPID := pid, ownerPID := pid)); }
    hide ApplyAll, Passes, Dedup;
  }

  /** The first candidate that takes part. */
  ghost predicate Heir(candidates: seq<PID>, participants: seq<PID>, heir: PID) {
    exists i :: 0 <= i < |candidates| && candidates[i] == heir && heir in participants
                && forall j :: 0 <= j < i ==> candidates[j] !in participants
  }

  lemma {:induction false} HeirIsFound(candidates: seq<PID>, participants: seq<PID>)
    ensures forall heir :: Heir(candidates, participants, heir) ==> heir == FirstParticipant(candidates, participants)
    ensures var first := FirstParticipant(candidates, participants);
            first != 0 ==> Heir(candidates, participants, first)
  {
    if candidates == [] {
    } else {
      var rest := candidates[1..];
      HeirIsFound(rest, participants);
      forall heir ensures Heir(candidates, participants, heir) <==>
                          if candidates[0] in participants then heir == candidates[0]
                          else Heir(rest, participants, heir)
      {
        HeirOfRest(candidates, participants, heir);
      }
    }
  }

  lemma HeirOfRest(candidates: seq<PID>, participants: seq<PID>, heir: PID)
    requires candidates != []
    ensures Heir(candidates, participants, heir) <==>
            if candidates[0] in participants then heir == candidates[0] else Heir(candidates[1..], participants, heir)
  {
    var rest := candidates[1..];
    if candidates[0] in participants {
      if heir == candidates[0] { assert Heir(candidates, participants, heir); }
    } else {
      if Heir(rest, participants, heir) {
        var i :| 0 <= i < |rest| && rest[i] == heir && heir in participants
                 && forall j :: 0 <= j < i ==> rest[j] !in participants;
        assert candidates[i + 1] == heir && forall j :: 0 < j < i + 1 ==> candidates[j] == rest[j - 1];
      }
      if Heir(candidates, participants, heir) {
        var i :| 0 <= i < |candidates| && candidates[i] == heir && heir in participants
                 && forall j :: 0 <= j < i ==> candidates[j] !in participants;
        assert rest[i - 1] == heir && forall j :: 0 <= j < i - 1 ==> rest[j] == candidates[j + 1];
      }
    }
  }

  /** The owner's gathering passes to the first candidate that takes part; a player with PID 0 is none. */
  lemma OwnersPassOn(env: Env, s: State, pid: PID, gid: nat, candidates: seq<PID>)
    ensures var request := MigrateGatheringOwnership(gid, candidates);
            var reply, t := Handle(env, s, pid, request).reply, Step(env, s, pid, request);
            if && gid in s.sessions && s.sessions[gid].info.ownerPID == pid
               && exists heir :: heir != 0 && Heir(candidates, s.sessions[gid].participants, heir)
            then
              && reply == Acknowledged
              && exists heir :: Heir(candidates, s.sessions[gid].participants, heir)
                                && Passes(s, t, pid, gid, s.sessions[gid].info.(ownerPID := heir))
            else reply.Failed? && t == s
  {
    assert ApplyAll(env, s, []) == s;
    if gid in s.sessions {
      HeirIsFound(candidates, s.sessions[gid].participants);
      var heir := FirstParticipant(candidates, s.sessions[gid].participants);
      PassingMoves(env, s, pid, gid, s.sessions[gid].info.(ownerPID := heir));
    }
    hide ApplyAll, Passes, Dedup, Heir, FirstParticipant;
  }

  /** The owner's gathering is gone, and all participants are told. */
  lemma OwnersUnregister(env: Env, s: State, pid: PID, gid: nat)
    ensures var reply, t := Handle(env, s, pid, UnregisterGathering(gid)).reply,
                            Step(env, s, pid, UnregisterGathering(gid));
            if gid in s.sessions && s.sessions[gid].info.ownerPID == pid
            then
              && reply == Acknowledged && t.sessions == s.sessions - {gid} && t.nextGatheringID == s.nextGatheringID
              && exists targets ::
                   && t.log == s.log + [Unregistered(pid, gid, targets)]
                   && Reaches(targets, SetOf(s.sessions[gid].participants))
            else reply.Failed? && t == s
  {
    assert ApplyAll(env, s, []) == s;
    if gid in s.sessions {
      var event := Unregistered(pid, gid, Dedup(s.sessions[gid].participants));
      OneMove(env, s, Destroy(gid));
      ApplyAllSnoc(env, s, [Destroy(gid)], Send(event));
      assert [Destroy(gid)] + [Send(event)] == [Destroy(gid), Send(event)];
      DedupReaches(s.sessions[gid].participants);
    }
    hide ApplyAll, Dedup, Reaches;
  }

  /** Those who stay are told who left, how, with which words, and how many heads are left. */
  ghost predicate Departed(event: Event, g: Gathering, pid: PID, kind: LeaveKind, message: string) {
    && event.Participation? && event.source == pid && event.kind == kind && event.gid == g.info.id
    && event.subject == pid && event.message == message
    && event.count == |Without(g.participants, pid)| % 0x1_0000_0000
    && Reaches(event.targets, SetOf(g.participants) - {pid})
  }

  lemma RemainingReached(participants: seq<PID>, pid: PID)
    requires exists p :: p in participants && p != pid
    ensures Reaches(Dedup(Without(participants, pid)), SetOf(participants) - {pid})
    ensures Dedup(Without(participants, pid)) != []
  {
    WithoutFacts(participants, pid);
    var remaining := Without(participants, pid);
    hide Without;
    DedupReaches(remaining);
    DedupFacts(remaining);
    hide Dedup;
    assert SetOf(remaining) == SetOf(participants) - {pid};
    var p :| p in participants && p != pid;
    assert p in Dedup(remaining);
  }

  lemma LeaveIsTold(env: Env, g: Gathering, pid: PID, kind: LeaveKind, message: string)
    requires env.endpoint && exists p :: p in g.participants && p != pid
    ensures exists event :: LeaveEvents(env, g, pid, kind, message) == [event]
                            && Departed(event, g, pid, kind, message)
  {
    RemainingReached(g.participants, pid);
    var remaining := Without(g.participants, pid);
    hide Without, Dedup, Reaches, SetOf;
    assert Departed(Participation(pid, kind, g.info.id, pid, message, U32(|remaining|), Dedup(remaining)), g, pid, kind,
                    message);
  }

  /** Leaving a gathering by request is told to those who stay, in the words and the kind of the request. */
  lemma LeaversAreAnnounced(env: Env, s: State, pid: PID, gid: nat, kind: LeaveKind, message: string)
    requires env.endpoint && Inv(s) && gid in s.sessions && pid in s.sessions[gid].participants
    requires |message| <= 256 && exists p :: p in s.sessions[gid].participants && p != pid
    ensures var request := LeaveGathering(gid, kind, message);
            && Handle(env, s, pid, request).reply == Acknowledged
            && exists event :: Step(env, s, pid, request).log == s.log + [event]
                               && Departed(event, s.sessions[gid], pid, kind, message)
  {
    OneMove(env, s, Leave(gid, pid, kind, message));
    LeaveIsTold(env, s.sessions[gid], pid, kind, message);
    hide ApplyAll, LeaveEvents, Departed, Inv;
  }

  /** A lost connection is told to those who stay in each of the player's gatherings, as a disconnect. */
  lemma DisconnectsAreAnnounced(env: Env, s: State, pid: PID, order: seq<nat>, gid: nat)
    requires env.endpoint && Inv(s) && Possible(env, s, pid, ConnectionEnded(order))
    requires gid in s.sessions && pid in s.sessions[gid].participants
    requires exists p :: p in s.sessions[gid].participants && p != pid
    ensures var t := Step(env, s, pid, ConnectionEnded(order));
            && s.log <= t.log
            && exists event :: event in t.log[|s.log|..] && Departed(event, s.sessions[gid], pid, Disconnect, "")
  {
    DisconnectLogs(env, s, pid, order);
    LeaveIsTold(env, s.sessions[gid], pid, Disconnect, "");
    assert gid in SetOf(order);
    hide Step, LeaveEvents, Departed, Inv, Enumerates, DepartureEvents;
    DepartureIsAmong(env, s.sessions, order, pid, Disconnect, gid);
    var event :| LeaveEvents(env, s.sessions[gid], pid, Disconnect, "") == [event]
                 && Departed(event, s.sessions[gid], pid, Disconnect, "");
    assert event in LeaveEvents(env, s.sessions[gid], pid, Disconnect, "");
  }

  lemma DisconnectLogs(env: Env, s: State, pid: PID, order: seq<nat>)
    requires Inv(s) && Possible(env, s, pid, ConnectionEnded(order))
    ensures var t := Step(env, s, pid, ConnectionEnded(order));
            s.log <= t.log && t.log[|s.log|..] == DepartureEvents(env, s.sessions, order, pid, Disconnect)
  {
    hide ApplyAll, Departures, Scrubbed, Enumerates, DepartureEvents, Inv;
    DisconnectClosedForm(env, s, order, pid, Disconnect);
    LogSuffix(s.log, DepartureEvents(env, s.sessions, order, pid, Disconnect));
    assert Handle(env, s, pid, ConnectionEnded(order)).moves == Departures(order, pid, Disconnect);
    hide Handle;
  }

  lemma LogSuffix(log: seq<Event>, events: seq<Event>)
    ensures log <= log + events && (log + events)[|log|..] == events
  {
  }

  lemma {:induction false} DepartureIsAmong(env: Env, sessions: map<nat, Gathering>, order: seq<nat>, pid: PID,
                                            kind: LeaveKind, gid: nat)
    requires gid in order && gid in sessions && pid in sessions[gid].participants
    ensures forall e :: e in LeaveEvents(env, sessions[gid], pid, kind, "") ==>
              e in DepartureEvents(env, sessions, order, pid, kind)
  {
    hide LeaveEvents;
    if Last(order) == gid {
    } else {
      assert order == Init(order) + [Last(order)];
      DepartureIsAmong(env, sessions, Init(order), pid, kind, gid);
    }
  }

  /** The console told of a join: who sends it, what for, where, with which words, and how many heads there are now. */
  ghost predicate JoinTold(event: Event, g: Gathering, pid: PID, heads: UInt16, message: string) {
    && event.Participation? && event.source == pid && event.kind == Participate && event.gid == g.info.id
    && event.message == message && event.count == (|g.participants| + heads) % 0x1_0000_0000
  }

  /** Under either flag a join goes to all participants, the newcomer included; under the reproducible one the newcomer
      is also told of each player who was there; and without them nobody but the owner hears of it. */
  lemma JoinersAreAnnounced(env: Env, g: Gathering, pid: PID, heads: UInt16, message: string)
    requires env.endpoint && heads > 0
    ensures forall event :: event in JoinEvents(env, g, pid, heads, message) ==> JoinTold(event, g, pid, heads, message)
    ensures g.info.flags.notifyAll || g.info.flags.notifyAllReproducibly ==>
              var events := JoinEvents(env, g, pid, heads, message);
              && events != [] && events[0].Participation? && events[0].subject == pid
              && Reaches(events[0].targets, SetOf(g.participants) + {pid})
    ensures g.info.flags.notifyAllReproducibly ==>
              forall p :: p in g.participants ==>
                exists event :: event in JoinEvents(env, g, pid, heads, message) && event.Participation?
                                && event.subject == p && event.targets == [pid]
    ensures !g.info.flags.notifyAll && !g.info.flags.notifyAllReproducibly ==>
              if pid == g.info.ownerPID then JoinEvents(env, g, pid, heads, message) == []
              else exists event :: JoinEvents(env, g, pid, heads, message) == [event]
                                   && event.Participation? && event.subject == pid
                                   && event.targets == [g.info.ownerPID]
  {
    var after := Joined(g, pid, heads);
    if !g.info.flags.notifyAll && !g.info.flags.notifyAllReproducibly && pid != g.info.ownerPID {
      assert JoinEvents(env, g, pid, heads, message)
          == [Participation(pid, Participate, g.info.id, pid, message, after.HeadCount(), [g.info.ownerPID])];
    }
    CopiesFacts<PID>(pid, heads);
    JoinedMembers(g, pid, heads);
    DedupReaches(after.participants);
    DedupFacts(after.participants);
    DedupFacts(g.participants);
    ReplaysTell(env, g.info.id, pid, Dedup(g.participants), message, after.HeadCount());
    assert pid in SetOf(after.participants);
    hide Copies, Dedup, Replays, Reaches;
  }

  lemma {:induction false} ReplaysTell(env: Env, gid: nat, pid: PID, known: seq<PID>, message: string, total: nat)
    requires env.endpoint
    ensures forall e :: e in Replays(env, gid, pid, known, message, total) ==>
              && e.Participation? && e.source == pid && e.kind == Participate && e.gid == gid
              && e.message == message && e.count == total
    ensures forall p :: p in known ==>
              exists e :: e in Replays(env, gid, pid, known, message, total) && e.subject == p && e.targets == [pid]
  {
    if known == [] {
    } else {
      var before := Replays(env, gid, pid, Init(known), message, total);
      var event := Participation(pid, Participate, gid, Last(known), message, total, [pid]);
      ReplaysTell(env, gid, pid, Init(known), message, total);
      assert known == Init(known) + [Last(known)];
      assert Replays(env, gid, pid, known, message, total) == before + [event];
      assert event in before + [event];
      forall p | p in known
        ensures exists e :: e in before + [event] && e.subject == p && e.targets == [pid]
      {
        if p in Init(known) {
          var e :| e in before && e.subject == p && e.targets == [pid];
          assert e in before + [event];
        }
      }
    }
  }

  // ---- Silence ----------------------------------------------------------------------------------

  ghost predicate Silent(s: State) { forall event :: event in s.log ==> !event.Participation? }

  lemma {:induction false} ReplaysNothing(env: Env, gid: nat, pid: PID, known: seq<PID>, message: string, total: nat)
    requires !env.endpoint
    ensures Replays(env, gid, pid, known, message, total) == []
  {
    if known == [] {
    } else {
      ReplaysNothing(env, gid, pid, Init(known), message, total);
    }
  }

  lemma MoveStaysSilent(env: Env, s: State, move: Move)
    requires !env.endpoint && Legal(s, move) && Silent(s)
    ensures Silent(Apply(env, s, move))
  {
    match move
    case Admit(gid, pid, heads, message) =>
      var g := s.sessions[gid];
      ReplaysNothing(env, g.info.id, pid, Dedup(g.participants), message, Joined(g, pid, heads).HeadCount());
    case Open(request, pid, heads, message, key, now) =>
      var g := Opened(request, s.nextGatheringID, pid, key, now);
      ReplaysNothing(env, g.info.id, pid, Dedup(g.participants), message, Joined(g, pid, heads).HeadCount());
      assert CreateLocked(s, request, pid, key, now).sessions[s.nextGatheringID] == g;
    case _ =>
  }

  lemma {:induction false} MovesStaySilent(env: Env, s: State, moves: seq<Move>)
    requires !env.endpoint && AllLegal(env, s, moves) && Silent(s)
    ensures Silent(ApplyAll(env, s, moves))
  {
    if moves == [] {
    } else {
      hide Legal, Apply, Silent;
      MovesStaySilent(env, s, Init(moves));
      MoveStaysSilent(env, ApplyAll(env, s, Init(moves)), Last(moves));
    }
  }

  /** Before the endpoint is up, nobody is told of anybody's participation. */
  lemma {:induction false} RunWithoutEndpointIsSilent(env: Env, calls: seq<Call>)
    requires !env.endpoint && Reachable(env, calls)
    ensures Silent(Final(env, calls))
  {
    if calls == [] {
    } else {
      hide Handle, Possible, Inv, AllLegal, Silent;
      var s, pid, request := Final(env, Init(calls)), Last(calls).pid, Last(calls).request;
      RunWithoutEndpointIsSilent(env, Init(calls));
      RunKeepsInv(env, Init(calls));
      HandlersAreLegal(env, s, pid, request);
      MovesStaySilent(env, s, Handle(env, s, pid, request).moves);
    }
  }
}
