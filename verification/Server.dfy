/** The request handlers as the server runs them, each proved to have the effect module Handlers gives it. */
module Server {
  import opened Common
  import opened Gatherings
  import opened Search
  import opened Handlers
  import opened Invariants
  import opened Runs
  import opened GatheringStore
  import opened Discovery

  /** The store went from before to after, and the reply was sent, as the effect says. */
  ghost predicate Did(env: Env, before: State, effect: Effect, after: State, reply: Reply) {
    after == ApplyAll(env, before, effect.moves) && reply == effect.reply
  }

  lemma DidNothing(env: Env, s: State, error: Error)
    ensures Did(env, s, Refuse(error), s, Failed(error))
  {
  }

  lemma DidOne(env: Env, s: State, move: Move, reply: Reply)
    ensures Did(env, s, Effect([move], reply), Apply(env, s, move), reply)
  {
    assert Init([move]) == [];
  }

  lemma DidTwo(env: Env, s: State, first: Move, second: Move, reply: Reply)
    ensures Did(env, s, Effect([first, second], reply), Apply(env, Apply(env, s, first), second), reply)
  {
    DidOne(env, s, first, reply);
    ApplyAllSnoc(env, s, [first], second);
    assert [first] + [second] == [first, second];
  }

  class Protocol {
    const store: Store

    constructor (store: Store)
      ensures this.store == store
    {
      this.store := store;
    }

    // ---- Creating -------------------------------------------------------------------------------

    /** CreateLocked, JoinLocked, and the deletion that undoes a creation whose creator does not fit. */
    method CreateAndJoin(pid: PID, session: MatchmakeSession, count: UInt16, message: string, key: nat, now: nat)
      returns (reply: Reply)
      requires store.Valid()
      modifies store, store.sessions.Values
      ensures store.Valid()
      ensures var effect := CreateEffect(store.env, old(store.Abs()), [], pid, session, count, message, key, now);
              Did(store.env, old(store.Abs()), effect, store.Abs(), reply)
    {
      ghost var before := store.Abs();
      assert before.nextGatheringID == store.nextGatheringID;
      hide JoinEvents, Store.Abs, Opened, Gatherings.Joined;
      ghost var created := Opened(session, before.nextGatheringID, pid, key, now);
      var stored := store.CreateLocked(pid, session, key, now);
      ghost var id := stored.info.id;
      assert id == before.nextGatheringID by { OpenedID(session, before.nextGatheringID, pid, key, now); }
      var result := store.JoinLocked(stored, pid, count, message);
      if result.Refused? {
        store.Forget(stored.info.id);
        UndoneCreation(store.env, before, session, pid, key, now);
        DidOne(store.env, before, Burn, Failed(result.error));
        return Failed(result.error);
      }
      DidOne(store.env, before, Open(session, pid, Heads(count), message, key, now), Session(stored.info));
      return Session(stored.info);
    }

    /** createMatchmakeSession. */
    method CreateMatchmakeSession(pid: PID, session: MatchmakeSession, fits: bool, count: UInt16, message: string,
                                  key: nat, now: nat)
      returns (reply: Reply, ghost order: seq<nat>)
      requires store.Valid()
      modifies store, store.sessions.Values
      ensures store.Valid()
      ensures var request := Request.CreateMatchmakeSession(session, fits, count, message, key, now, order);
              && Possible(store.env, old(store.Abs()), pid, request)
              && Did(store.env, old(store.Abs()), Handle(store.env, old(store.Abs()), pid, request), store.Abs(), reply)
    {
      ghost var before := store.Abs();
      assert before.sessions.Keys == store.sessions.Keys;
      if |message| > MAX_MESSAGE_LENGTH || !ValidSession(session, fits) {
        order := EnumerationExists(store.sessions.Keys);
        DidNothing(store.env, before, InvalidArgument);
        reply := Failed(InvalidArgument);
        return;
      }
      hide CreateEffect, Store.Abs;
      order := LeaveAll(pid);
      reply := CreateAndJoin(pid, session, count, message, key, now);
      CreateAfter(store.env, before, Departures(order, pid, Disconnect), pid, session, count, message, key, now,
                  store.Abs(), reply);
    }

    /** registerGathering. */
    method RegisterGathering(pid: PID, session: MatchmakeSession, fits: bool, key: nat, now: nat)
      returns (reply: Reply, ghost order: seq<nat>)
      requires store.Valid()
      modifies store, store.sessions.Values
      ensures store.Valid()
      ensures var request := Request.RegisterGathering(session, fits, key, now, order);
              && Possible(store.env, old(store.Abs()), pid, request)
              && Did(store.env, old(store.Abs()), Handle(store.env, old(store.Abs()), pid, request), store.Abs(), reply)
    {
      ghost var before := store.Abs();
      assert before.sessions.Keys == store.sessions.Keys;
      if !ValidSession(session, fits) {
        order := EnumerationExists(store.sessions.Keys);
        DidNothing(store.env, before, InvalidArgument);
        reply := Failed(InvalidArgument);
        return;
      }
      hide CreateEffect, Store.Abs;
      order := LeaveAll(pid);
      reply := CreateAndJoin(pid, session, 1, "", key, now);
      CreateAfter(store.env, before, Departures(order, pid, Disconnect), pid, session, 1, "", key, now, store.Abs(),
                  reply);
    }

    // ---- Joining and leaving --------------------------------------------------------------------

    /** joinMatchmakeSession, joinMatchmakeSessionEx and, without the password check, participate. */
    method Join(pid: PID, gid: nat, count: UInt16, message: string, checkPasswords: bool) returns (reply: Reply)
      requires store.Valid()
      modifies store, store.sessions.Values
      ensures store.Valid()
      ensures Did(store.env, old(store.Abs()),
                  JoinEffect(store.env, old(store.Abs()), pid, gid, count, message, checkPasswords), store.Abs(), reply)
    {
      hide JoinEvents, Gatherings.JoinLocked;
      if |message| > MAX_MESSAGE_LENGTH { return Failed(InvalidArgument); }
      if gid !in store.sessions { return Failed(SessionVoid); }
      var session := store.sessions[gid];
      assert store.Abs().sessions[gid] == session.Snapshot();
      if checkPasswords && (session.info.userPasswordEnabled || session.info.systemPasswordEnabled) {
        return Failed(PermissionDenied);
      }
      var refusal := CanJoin(store.env, pid, session.info);
      if refusal.Some? { return Failed(refusal.value); }
      var key := session.info.sessionKey;
      ghost var before := store.Abs();
      var result := store.JoinLocked(session, pid, count, message);
      if result.Refused? { return Failed(result.error); }
      DidOne(store.env, before, Admit(gid, pid, Heads(count), message),
             if checkPasswords then SessionKey(key) else Acknowledged);
      return if checkPasswords then SessionKey(key) else Acknowledged;
    }

    /** cancelParticipation and endParticipation, which differ in the event they send. */
    method LeaveGathering(pid: PID, gid: nat, kind: LeaveKind, message: string) returns (reply: Reply)
      requires store.Valid()
      modifies store, store.sessions.Values
      ensures store.Valid()
      ensures Did(store.env, old(store.Abs()), LeaveEffect(old(store.Abs()), pid, gid, kind, message), store.Abs(),
                  reply)
    {
      hide Gatherings.LeaveLocked;
      if |message| > MAX_MESSAGE_LENGTH { return Failed(InvalidArgument); }
      if gid !in store.sessions { return Failed(SessionVoid); }
      ghost var before := store.Abs();
      store.LeaveLocked(store.sessions[gid], pid, kind, message);
      DidOne(store.env, before, Leave(gid, pid, kind, message), Acknowledged);
      return Acknowledged;
    }

    /** The hook that runs when a console's connection ends. */
    method ConnectionEnded(pid: PID) returns (ghost order: seq<nat>)
      requires store.Valid()
      modifies store, store.sessions.Values
      ensures store.Valid()
      ensures var request := Request.ConnectionEnded(order);
              && Possible(store.env, old(store.Abs()), pid, request)
              && Did(store.env, old(store.Abs()), Handle(store.env, old(store.Abs()), pid, request), store.Abs(),
                     Acknowledged)
    {
      assert store.Abs().sessions.Keys == store.sessions.Keys;
      hide Store.Abs;
      order := store.RemoveConnectionLocked(pid, Disconnect);
    }

    // ---- Automatic matchmaking ------------------------------------------------------------------

    /** The joinable gathering to put the caller in, if discovery finds one. */
    method FindJoinable(pid: PID, criterias: seq<Criteria>, session: MatchmakeSession)
      returns (found: Option<Gathering>, ghost listings: seq<seq<nat>>)
      requires store.Valid() && |store.sessions| < TWO32
      ensures |listings| == if criterias == [] then 1 else |criterias|
      ensures forall i :: 0 <= i < |listings| ==> Enumerates(listings[i], store.Abs().sessions.Keys)
      ensures found == Choose(store.env, store.Abs(), pid, criterias, session, listings)
      ensures found.Some? ==>
                found.value.info.id in store.sessions && store.Abs().sessions[found.value.info.id] == found.value
    {
      found, listings := LookAround(pid, criterias, session);
      KeysAgree(store);
      assert OwnIDs(store.Abs());
      hide Choose;
      ChoiceIsLive(store.env, store.Abs(), pid, criterias, session, listings);
    }

    method LookAround(pid: PID, criterias: seq<Criteria>, session: MatchmakeSession)
      returns (found: Option<Gathering>, ghost listings: seq<seq<nat>>)
      requires store.Valid() && |store.sessions| < TWO32
      ensures |listings| == if criterias == [] then 1 else |criterias|
      ensures forall i :: 0 <= i < |listings| ==> Enumerates(listings[i], store.sessions.Keys)
      ensures found == Choose(store.env, store.Abs(), pid, criterias, session, listings)
    {
      hide Enumerates, FindSession, SearchResult, Lookup, FirstJoinable;
      if |criterias| == 0 {
        var candidate, listing := FindSessionLocked(store, pid, session);
        listings := [listing];
        found := if candidate.Some? && CanJoin(store.env, pid, candidate.value.info).None? then candidate else None;
      } else {
        var options := SearchOptions(true, pid, store.env.allowPublic);
        ghost var alls;
        var candidates;
        candidates, listings, alls := SearchLocked(store, pid, criterias, ResultRange(0, 1), Some(session), options);
        assert store.Abs().sessions.Keys == store.sessions.Keys;
        assert alls == Listings(store.Abs(), listings);
        found := FirstOf(pid, candidates);
      }
    }

    method FirstOf(pid: PID, candidates: seq<Gathering>) returns (found: Option<Gathering>)
      ensures found == FirstJoinable(store.env, pid, candidates)
    {
      for i := 0 to |candidates|
        invariant FirstJoinable(store.env, pid, candidates) == FirstJoinable(store.env, pid, candidates[i..])
      {
        assert candidates[i..][1..] == candidates[i + 1..];
        if CanJoin(store.env, pid, candidates[i].info).None? { return Some(candidates[i]); }
      }
      return None;
    }

    /** Joins the gathering that was found, or opens a new one. */
    method JoinOrCreate(pid: PID, found: Option<Gathering>, session: MatchmakeSession, message: string, key: nat,
                        now: nat,
                        ghost departures: seq<Move>, ghost before: State) returns (reply: Reply)
      requires store.Valid() && store.Abs() == ApplyAll(store.env, before, departures)
      requires found.Some? ==>
                 found.value.info.id in store.sessions && store.Abs().sessions[found.value.info.id] == found.value
      modifies store, store.sessions.Values
      ensures store.Valid()
      ensures Did(store.env, before,
                  MatchedEffect(store.env, old(store.Abs()), departures, pid, found, session, message, key, now),
                  store.Abs(), reply)
    {
      hide CreateEffect, JoinEvents;
      if found.None? {
        reply := CreateAndJoin(pid, session, 1, message, key, now);
        CreateAfter(store.env, before, departures, pid, session, 1, message, key, now, store.Abs(), reply);
        return;
      }
      hide Gatherings.JoinLocked, Gatherings.Joined, ApplyAll;
      var chosen := store.sessions[found.value.info.id];
      assert chosen.Snapshot() == found.value;
      var result := store.JoinLocked(chosen, pid, 1, message);
      if result.Refused? { return Failed(result.error); }
      ApplyAllSnoc(store.env, before, departures, Admit(found.value.info.id, pid, 1, message));
      return Session(chosen.info);
    }

    /** autoMatchmakePostpone without criteria, autoMatchmakeWithSearchCriteriaPostpone with some. */
    method AutoMatchmake(pid: PID, criterias: seq<Criteria>, session: MatchmakeSession, fits: bool, message: string,
                         key: nat, now: nat)
      returns (reply: Reply, ghost order: seq<nat>, ghost listings: seq<seq<nat>>)
      requires store.Valid() && |store.sessions| < TWO32
      modifies store, store.sessions.Values
      ensures store.Valid()
      ensures var request := Request.AutoMatchmake(criterias, session, fits, message, key, now, order, listings);
              && Possible(store.env, old(store.Abs()), pid, request)
              && Did(store.env, old(store.Abs()), Handle(store.env, old(store.Abs()), pid, request), store.Abs(), reply)
    {
      ghost var before := store.Abs();
      KeysAgree(store);
      hide Store.Abs, Handle, Possible, Did, MatchedEffect, Choose, Enumerates, ApplyAll, Departures;
      if |message| > MAX_MESSAGE_LENGTH || !ValidSession(session, fits) {
        order, listings := AutoRejected(store.env, before, pid, criterias, session, fits, message, key, now);
        reply := Failed(InvalidArgument);
        return;
      }
      ghost var cleared;
      reply, order, listings, cleared := Matchmake(pid, criterias, session, message, key, now);
      AutoMatches(store.env, before, pid, criterias, session, fits, message, key, now, order, listings, cleared,
                  store.Abs(), reply);
    }

    /** The locked part of automatic matchmaking: leave everything, look around, join or create. */
    method Matchmake(pid: PID, criterias: seq<Criteria>, session: MatchmakeSession, message: string, key: nat, now: nat)
      returns (reply: Reply, ghost order: seq<nat>, ghost listings: seq<seq<nat>>, ghost cleared: State)
      requires store.Valid() && |store.sessions| < TWO32
      modifies store, store.sessions.Values
      ensures store.Valid() && |listings| == if criterias == [] then 1 else |criterias|
      ensures Enumerates(order, old(store.Abs()).sessions.Keys)
      ensures cleared == ApplyAll(store.env, old(store.Abs()), Departures(order, pid, Disconnect))
      ensures forall i :: 0 <= i < |listings| ==> Enumerates(listings[i], cleared.sessions.Keys)
      ensures Did(store.env, old(store.Abs()),
                  MatchedEffect(store.env, cleared, Departures(order, pid, Disconnect), pid,
                                Choose(store.env, cleared, pid, criterias, session, listings),
                                session, message, key, now),
                  store.Abs(), reply)
    {
      hide Store.Abs, Choose, MatchedEffect, Enumerates, Did, ApplyAll, Departures;
      ghost var before := store.Abs();
      order := LeaveAll(pid);
      cleared := store.Abs();
      var found;
      found, listings := FindJoinable(pid, criterias, session);
      reply := JoinOrCreate(pid, found, session, message, key, now, Departures(order, pid, Disconnect), before);
    }

    /** RemoveConnectionLocked, as the creating handlers call it first. */
    method LeaveAll(pid: PID) returns (ghost order: seq<nat>)
      requires store.Valid()
      modifies store, store.sessions.Values
      ensures store.Valid() && store.sessions.Values <= old(store.sessions.Values)
              && |store.sessions| <= old(|store.sessions|)
      ensures Enumerates(order, old(store.Abs()).sessions.Keys)
      ensures store.Abs() == ApplyAll(store.env, old(store.Abs()), Departures(order, pid, Disconnect))
    {
      ghost var before := store.Abs();
      KeysAgree(store);
      hide Store.Abs, Enumerates, ApplyAll, Departures;
      order := store.RemoveConnectionLocked(pid, Disconnect);
      KeysAgree(store);
      FewerSessions(store.env, before, order, pid, store.Abs());
    }

    // ---- Settings and roles ---------------------------------------------------------------------

    /** unregisterGathering, one gathering of unregisterGatherings. */
    method UnregisterGathering(pid: PID, gid: nat) returns (reply: Reply)
      requires store.Valid()
      modifies store, store.sessions.Values
      ensures store.Valid()
      ensures Did(store.env, old(store.Abs()), UnregisterEffect(old(store.Abs()), pid, gid), store.Abs(), reply)
    {
      if gid !in store.sessions { return Failed(SessionVoid); }
      var session := store.sessions[gid];
      if session.info.ownerPID != pid { return Failed(PermissionDenied); }
      ghost var before := store.Abs();
      var participants := RemoveDuplicates(session.participants);
      store.Forget(gid);
      store.SendNotificationEvent(Unregistered(pid, gid, participants));
      DidTwo(store.env, before, Destroy(gid), Send(Unregistered(pid, gid, participants)), Acknowledged);
      return Acknowledged;
    }

    /** updateMatchmakeSession, which checks the session first, and updateGathering, which does not. */
    method UpdateSession(pid: PID, session: MatchmakeSession, checked: bool, fits: bool) returns (reply: Reply)
      requires store.Valid()
      modifies store, store.sessions.Values
      ensures store.Valid()
      ensures Did(store.env, old(store.Abs()),
                  UpdateEffect(old(store.Abs()), pid, session,
                               Request.UpdateSession(session, checked, fits).SettingsAllowed()),
                  store.Abs(), reply)
    {
      if checked && !ValidSession(session, fits) { return Failed(InvalidArgument); }
      if session.id !in store.sessions { return Failed(SessionVoid); }
      var stored := store.sessions[session.id];
      if stored.info.ownerPID != pid { return Failed(PermissionDenied); }
      ghost var before := store.Abs();
      var updated := session;
      updated := updated.(id := stored.info.id);
      updated := updated.(ownerPID := stored.info.ownerPID);
      updated := updated.(hostPID := stored.info.hostPID);
      updated := updated.(sessionKey := stored.info.sessionKey);
      updated := updated.(startedTime := stored.info.startedTime);
      updated := updated.(participationCount := U32(|stored.participants|));
      assert updated == Updated(stored.Snapshot(), session);
      store.Replace(stored, updated, stored.url);
      DidOne(store.env, before, Revise(session.id, updated, before.sessions[session.id].url), Acknowledged);
      return Acknowledged;
    }

    /** mutateOwned with one of its callers' mutations. */
    method MutateOwned(pid: PID, gid: nat, mutation: Mutation) returns (reply: Reply)
      requires store.Valid()
      modifies store, store.sessions.Values
      ensures store.Valid()
      ensures Did(store.env, old(store.Abs()), MutateEffect(old(store.Abs()), pid, gid, mutation), store.Abs(), reply)
    {
      if !MutationWellFormed(mutation) { return Failed(InvalidArgument); }
      if gid !in store.sessions { return Failed(SessionVoid); }
      var session := store.sessions[gid];
      if session.info.ownerPID != pid { return Failed(PermissionDenied); }
      ghost var before := store.Abs();
      var mutated := Mutated(session.info, mutation);
      if mutated.None? { return Failed(InvalidArgument); }
      MutatedKeepsID(session.info, mutation);
      store.Replace(session, mutated.value, session.url);
      DidOne(store.env, before, Revise(gid, mutated.value, before.sessions[gid].url), Acknowledged);
      return Acknowledged;
    }

    /** launchSession, updateSessionURL and updateSessionHostV1: the caller becomes the host. */
    method BecomeHost(pid: PID, gid: nat, url: Option<string>) returns (reply: Reply)
      requires store.Valid()
      modifies store, store.sessions.Values
      ensures store.Valid()
      ensures Did(store.env, old(store.Abs()), HostEffect(old(store.Abs()), pid, gid, url), store.Abs(), reply)
    {
      if gid !in store.sessions { return Failed(SessionVoid); }
      var session := store.sessions[gid];
      var contains := session.Contains(pid);
      if !contains { return Failed(PermissionDenied); }
      ghost var before := store.Abs();
      var hosted := session.info.(hostPID := pid);
      var newURL := if url.Some? then url.value else session.url;
      store.Replace(session, hosted, newURL);
      DidOne(store.env, before, Revise(gid, hosted, newURL), Acknowledged);
      return Acknowledged;
    }

    /** updateSessionHost. */
    method UpdateSessionHost(pid: PID, gid: nat, migrateOwner: bool) returns (reply: Reply)
      requires store.Valid()
      modifies store, store.sessions.Values
      ensures store.Valid()
      ensures Did(store.env, old(store.Abs()), UpdateSessionHostEffect(old(store.Abs()), pid, gid, migrateOwner),
                  store.Abs(), reply)
    {
      if !migrateOwner {
        reply := BecomeHost(pid, gid, None);
        return;
      }
      if gid !in store.sessions { return Failed(SessionVoid); }
      var session := store.sessions[gid];
      var contains := session.Contains(pid);
      if !contains { return Failed(PermissionDenied); }
      if !session.info.flags.changeOwnerByOtherHost { return Failed(InvalidOperation); }
      assert store.Abs().sessions[gid] == session.Snapshot();
      hide Store.Abs, Apply, ApplyAll, Dedup;
      PassOwnership(pid, session, session.info.(hostPID := pid, ownerPID := pid));
      return Acknowledged;
    }

    /** The new record of a gathering that changes hands, announced to its participants. */
    method PassOwnership(pid: PID, session: Session, migrated: MatchmakeSession)
      requires store.Valid() && store.Holds(session) && migrated.id == session.info.id
      modifies session, store`log
      ensures store.Valid()
      ensures var event := OwnershipChanged(pid, migrated.id, migrated.ownerPID, Dedup(old(session.participants)));
              Did(store.env, old(store.Abs()),
                  Effect([Revise(migrated.id, migrated, old(session.url)), Send(event)], Acknowledged),
                  store.Abs(), Acknowledged)
    {
      hide Store.Abs, Apply, ApplyAll, Dedup;
      ghost var before, url := store.Abs(), session.url;
      store.Replace(session, migrated, session.url);
      var participants := RemoveDuplicates(session.participants);
      var event := OwnershipChanged(pid, migrated.id, migrated.ownerPID, participants);
      store.SendNotificationEvent(event);
      DidTwo(store.env, before, Revise(migrated.id, migrated, url), Send(event), Acknowledged);
    }

    /** migrateGatheringOwnershipV1. */
    method MigrateGatheringOwnership(pid: PID, gid: nat, candidates: seq<PID>) returns (reply: Reply)
      requires store.Valid()
      modifies store, store.sessions.Values
      ensures store.Valid()
      ensures Did(store.env, old(store.Abs()), MigrateEffect(old(store.Abs()), pid, gid, candidates), store.Abs(),
                  reply)
    {
      if gid !in store.sessions { return Failed(SessionVoid); }
      var session := store.sessions[gid];
      if session.info.ownerPID != pid { return Failed(PermissionDenied); }
      var newOwner := FirstPresent(session, candidates);
      if newOwner == 0 { return Failed(InvalidOperation); }
      assert store.Abs().sessions[gid] == session.Snapshot();
      hide Store.Abs, Apply, ApplyAll, Dedup;
      PassOwnership(pid, session, session.info.(ownerPID := newOwner));
      return Acknowledged;
    }

    method FirstPresent(session: Session, candidates: seq<PID>) returns (newOwner: PID)
      ensures newOwner == FirstParticipant(candidates, session.participants)
    {
      for i := 0 to |candidates|
        invariant FirstParticipant(candidates, session.participants)
                  == FirstParticipant(candidates[i..], session.participants)
      {
        assert candidates[i..][1..] == candidates[i + 1..];
        var contains := session.Contains(candidates[i]);
        if contains { return candidates[i]; }
      }
      return 0;
    }
  }

  // ---- Glue between the methods and the effects -------------------------------------------------

  lemma OpenedID(session: MatchmakeSession, gid: nat, pid: PID, key: nat, now: nat)
    ensures Opened(session, gid, pid, key, now).info.id == gid
  {
  }

  lemma UndoneCreation(env: Env, s: State, session: MatchmakeSession, pid: PID, key: nat, now: nat)
    ensures var t := Gatherings.CreateLocked(s, session, pid, key, now);
            t.(sessions := t.sessions - {s.nextGatheringID}) == Apply(env, s, Burn)
  {
    var created := Opened(session, s.nextGatheringID, pid, key, now);
    assert s.sessions[s.nextGatheringID := created] - {s.nextGatheringID} == s.sessions - {s.nextGatheringID};
  }

  /** Creating after some departures is the departures and then the creation. */
  lemma CreateAfter(env: Env, before: State, departures: seq<Move>, pid: PID, session: MatchmakeSession, count: UInt16,
                    message: string, key: nat, now: nat, after: State, reply: Reply)
    requires var t := ApplyAll(env, before, departures);
             Did(env, t, CreateEffect(env, t, [], pid, session, count, message, key, now), after, reply)
    ensures var t := ApplyAll(env, before, departures);
            Did(env, before, CreateEffect(env, t, departures, pid, session, count, message, key, now), after, reply)
  {
    hide Apply, JoinError, Opened, ApplyAll;
    var t := ApplyAll(env, before, departures);
    var move := CreateEffect(env, t, [], pid, session, count, message, key, now).moves[0];
    assert CreateEffect(env, t, [], pid, session, count, message, key, now).moves == [move];
    DidOne(env, t, move, reply);
    ApplyAllSnoc(env, before, departures, move);
  }

  /** What automatic matchmaking does once it has looked around. */
  ghost function MatchedEffect(env: Env, t: State, departures: seq<Move>, pid: PID, found: Option<Gathering>,
                               session: MatchmakeSession,
                               message: string, key: nat, now: nat): Effect
  {
    match found
    case None => CreateEffect(env, t, departures, pid, session, 1, message, key, now)
    case Some(g) =>
      match JoinError(g, pid, 1)
      case Some(error) => Effect(departures, Failed(error))
      case None => Effect(departures + [Admit(g.info.id, pid, 1, message)], Session(Gatherings.Joined(g, pid, 1).info))
  }

  lemma AutoMatches(env: Env, s: State, pid: PID, criterias: seq<Criteria>, session: MatchmakeSession, fits: bool,
                    message: string, key: nat, now: nat,
                    order: seq<nat>, listings: seq<seq<nat>>, cleared: State, after: State, reply: Reply)
    requires ValidSession(session, fits) && |message| <= MAX_MESSAGE_LENGTH
    requires |listings| == if criterias == [] then 1 else |criterias|
    requires Enumerates(order, s.sessions.Keys) && cleared == ApplyAll(env, s, Departures(order, pid, Disconnect))
    requires forall i :: 0 <= i < |listings| ==> Enumerates(listings[i], cleared.sessions.Keys)
    requires Did(env, s, MatchedEffect(env, cleared, Departures(order, pid, Disconnect), pid,
                                       Choose(env, cleared, pid, criterias, session, listings),
                                       session, message, key, now), after, reply)
    ensures var request := Request.AutoMatchmake(criterias, session, fits, message, key, now, order, listings);
            Possible(env, s, pid, request) && Did(env, s, Handle(env, s, pid, request), after, reply)
  {
    hide Choose, ApplyAll, Departures, Enumerates, CreateEffect;
  }

  /** A rejected request looks at nothing, so any listings will do. */
  lemma AutoRejected(env: Env, s: State, pid: PID, criterias: seq<Criteria>, session: MatchmakeSession, fits: bool,
                     message: string, key: nat, now: nat)
    returns (order: seq<nat>, listings: seq<seq<nat>>)
    requires |message| > MAX_MESSAGE_LENGTH || !ValidSession(session, fits)
    ensures var request := Request.AutoMatchmake(criterias, session, fits, message, key, now, order, listings);
            Possible(env, s, pid, request) && Did(env, s, Handle(env, s, pid, request), s, Failed(InvalidArgument))
  {
    hide Choose, Departures, Enumerates, CreateEffect;
    order := EnumerationExists(s.sessions.Keys);
    var listing := EnumerationExists(ApplyAll(env, s, Departures(order, pid, Disconnect)).sessions.Keys);
    listings := seq(if criterias == [] then 1 else |criterias|, _ => listing);
    DidNothing(env, s, InvalidArgument);
  }

  lemma KeysAgree(store: Store)
    ensures store.Abs().sessions.Keys == store.sessions.Keys && |store.sessions| == |store.Abs().sessions|
  {
    assert store.Abs().sessions.Keys == store.sessions.Keys;
    assert |store.Abs().sessions.Keys| == |store.Abs().sessions|;
    assert |store.sessions.Keys| == |store.sessions|;
  }

  /** Leaving gatherings adds none. */
  lemma FewerSessions(env: Env, before: State, order: seq<nat>, pid: PID, cleared: State)
    requires cleared == ApplyAll(env, before, Departures(order, pid, Disconnect))
    ensures |cleared.sessions| <= |before.sessions|
  {
    var departures := Departures(order, pid, Disconnect);
    DeparturesAreLeaves(order, pid, Disconnect);
    LeavesKeepKeys(env, before, departures);
    SubsetSize(cleared.sessions.Keys, before.sessions.Keys);
    assert |cleared.sessions.Keys| == |cleared.sessions| && |before.sessions.Keys| == |before.sessions|;
  }

  lemma {:induction false} SubsetSize(a: set<nat>, b: set<nat>)
    requires a <= b
    ensures |a| <= |b|
  {
    if a != {} {
      var x :| x in a;
      SubsetSize(a - {x}, b - {x});
    }
  }

  lemma MutatedKeepsID(info: MatchmakeSession, mutation: Mutation)
    ensures Mutated(info, mutation).Some? ==> Mutated(info, mutation).value.id == info.id
  {
  }
}
