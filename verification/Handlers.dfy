/** What each request does, as one atomic step: the moves it makes and the reply it sends.
    Map iteration orders, session keys and times are part of the request; a run is a list of requests. */
module Handlers {
  import opened Common
  import opened Gatherings
  import opened Search

  const MAX_MESSAGE_LENGTH: nat := 256

  datatype Reply =
    | Failed(error: Error)
    | Acknowledged
    | SessionKey(key: nat)
    | Session(info: MatchmakeSession)

  datatype Effect = Effect(moves: seq<Move>, reply: Reply)

  /** What an owner may change about a gathering through the single-field requests. */
  datatype Mutation =
    | SetOpen(open: bool)
    | SetApplicationBuffer(buffer: seq<nat>)
    | SetProgressScore(score: nat)
    | SetAttributes(attributes: seq<UInt32>)
    | SetAttribute(index: nat, value: UInt32)
    | SetState(state: nat)

  datatype Request =
    | CreateMatchmakeSession(session: MatchmakeSession, fits: bool, count: UInt16, message: string,
                             key: nat, now: nat, order: seq<nat>)
    | RegisterGathering(session: MatchmakeSession, fits: bool, key: nat, now: nat, order: seq<nat>)
    | JoinMatchmakeSession(gid: nat, count: UInt16, message: string)
    | ParticipateIn(gid: nat, message: string)
    | AutoMatchmake(criterias: seq<Criteria>, session: MatchmakeSession, fits: bool, message: string, key: nat,
                    now: nat,
                    order: seq<nat>, listings: seq<seq<nat>>)
    | LeaveGathering(gid: nat, kind: LeaveKind, message: string)
    | ConnectionEnded(order: seq<nat>)
    | UnregisterGathering(gid: nat)
    | UpdateSession(session: MatchmakeSession, checked: bool, fits: bool)
    | Mutate(gid: nat, mutation: Mutation)
    | LaunchSession(gid: nat, url: string)
    | UpdateSessionURL(gid: nat, url: string)
    | UpdateSessionHost(gid: nat, migrateOwner: bool)
    | MigrateGatheringOwnership(gid: nat, candidates: seq<PID>)
  {
    /** updateMatchmakeSession checks the settings it is given; updateGathering takes any. */
    predicate SettingsAllowed()
      requires UpdateSession?
    {
      checked ==> ValidSession(session, fits)
    }
  }

  /** CheckValidMatchmakeSession; fits is its verdict on the lengths of what the record leaves out. */
  predicate ValidSession(session: MatchmakeSession, fits: bool) {
    && |session.attributes| == 6
    && session.progressScore <= 100
    && |session.userPassword| <= 32
    && |session.applicationBuffer| <= 512
    && fits
  }

  function Refuse(error: Error): Effect { Effect([], Failed(error)) }

  /** A creation once the caller has left its old gatherings: open, or burn an ID when the join is refused. */
  function CreateEffect(env: Env, t: State, departures: seq<Move>, pid: PID, session: MatchmakeSession, count: UInt16,
                        message: string, key: nat, now: nat): Effect
  {
    var created := Opened(session, t.nextGatheringID, pid, key, now);
    match JoinError(created, pid, count)
    case Some(error) => Effect(departures + [Burn], Failed(error))
    case None =>
      Effect(departures + [Open(session, pid, Heads(count), message, key, now)],
             Session(Joined(created, pid, Heads(count)).info))
  }

  /** The joinable gathering automatic matchmaking settles on; listings holds one listing order per scan. */
  function Choose(env: Env, t: State, pid: PID, criterias: seq<Criteria>, session: MatchmakeSession,
                  listings: seq<seq<nat>>): Option<Gathering>
    requires |listings| == if criterias == [] then 1 else |criterias|
  {
    if criterias == [] then
      match FindSession(env, pid, session, Lookup(t.sessions, listings[0]))
      case None => None
      case Some(g) => if CanJoin(env, pid, g.info).None? then Some(g) else None
    else
      FirstJoinable(env, pid, SearchResult(env, pid, criterias, ResultRange(0, 1), Some(session),
                                           AutoOptions(env, pid), Listings(t, listings)))
  }

  function AutoOptions(env: Env, pid: PID): SearchOptions { SearchOptions(true, pid, env.allowPublic) }

  function Listings(t: State, listings: seq<seq<nat>>): (alls: seq<seq<Gathering>>)
    ensures |alls| == |listings|
    ensures forall i :: 0 <= i < |listings| ==> alls[i] == Lookup(t.sessions, listings[i])
  {
    seq(|listings|, i requires 0 <= i < |listings| => Lookup(t.sessions, listings[i]))
  }

  function FirstJoinable(env: Env, pid: PID, gs: seq<Gathering>): Option<Gathering> {
    if gs == [] then None
    else if CanJoin(env, pid, gs[0].info).None? then Some(gs[0])
    else FirstJoinable(env, pid, gs[1..])
  }

  function AutoMatchmakeEffect(env: Env, s: State, pid: PID, criterias: seq<Criteria>, session: MatchmakeSession,
                               valid: bool,
                               message: string, key: nat, now: nat, order: seq<nat>, listings: seq<seq<nat>>): Effect
    requires |listings| == if criterias == [] then 1 else |criterias|
  {
    if |message| > MAX_MESSAGE_LENGTH || !valid then Refuse(InvalidArgument)
    else
      var departures := Departures(order, pid, Disconnect);
      var t := ApplyAll(env, s, departures);
      match Choose(env, t, pid, criterias, session, listings)
      case None => CreateEffect(env, t, departures, pid, session, 1, message, key, now)
      case Some(g) =>
        match JoinError(g, pid, 1)
        case Some(error) => Effect(departures, Failed(error))
        case None => Effect(departures + [Admit(g.info.id, pid, 1, message)], Session(Joined(g, pid, 1).info))
  }

  /** Joining by gathering ID; checkPasswords is what sets joinMatchmakeSession apart from participate. */
  function JoinEffect(env: Env, s: State, pid: PID, gid: nat, count: UInt16, message: string,
                      checkPasswords: bool): Effect {
    if |message| > MAX_MESSAGE_LENGTH then Refuse(InvalidArgument)
    else if gid !in s.sessions then Refuse(SessionVoid)
    else
      var g := s.sessions[gid];
      if checkPasswords && (g.info.userPasswordEnabled || g.info.systemPasswordEnabled) then Refuse(PermissionDenied)
      else if CanJoin(env, pid, g.info).Some? then Refuse(CanJoin(env, pid, g.info).value)
      else if JoinError(g, pid, count).Some? then Refuse(JoinError(g, pid, count).value)
      else Effect([Admit(gid, pid, Heads(count), message)],
                  if checkPasswords then SessionKey(g.info.sessionKey) else Acknowledged)
  }

  function LeaveEffect(s: State, pid: PID, gid: nat, kind: LeaveKind, message: string): Effect {
    if |message| > MAX_MESSAGE_LENGTH then Refuse(InvalidArgument)
    else if gid !in s.sessions then Refuse(SessionVoid)
    else Effect([Leave(gid, pid, kind, message)], Acknowledged)
  }

  function UnregisterEffect(s: State, pid: PID, gid: nat): Effect {
    if gid !in s.sessions then Refuse(SessionVoid)
    else if s.sessions[gid].info.ownerPID != pid then Refuse(PermissionDenied)
    else Effect([Destroy(gid), Send(Unregistered(pid, gid, Dedup(s.sessions[gid].participants)))], Acknowledged)
  }

  /** ownedSession: the gathering must exist and belong to the caller. */
  function OwnedError(s: State, pid: PID, gid: nat): Option<Error> {
    if gid !in s.sessions then Some(SessionVoid)
    else if s.sessions[gid].info.ownerPID != pid then Some(PermissionDenied)
    else None
  }

  /** participantSession: the gathering must exist and hold the caller. */
  function ParticipantError(s: State, pid: PID, gid: nat): Option<Error> {
    if gid !in s.sessions then Some(SessionVoid)
    else if pid !in s.sessions[gid].participants then Some(PermissionDenied)
    else None
  }

  /** New settings keep the identity, roles, key, start time and head count of the old. */
  function Updated(g: Gathering, session: MatchmakeSession): MatchmakeSession {
    session.(id := g.info.id, ownerPID := g.info.ownerPID, hostPID := g.info.hostPID, sessionKey := g.info.sessionKey,
             startedTime := g.info.startedTime, participationCount := g.HeadCount())
  }

  function UpdateEffect(s: State, pid: PID, session: MatchmakeSession, valid: bool): Effect {
    if !valid then Refuse(InvalidArgument)
    else
      match OwnedError(s, pid, session.id)
      case Some(error) => Refuse(error)
      case None =>
        var g := s.sessions[session.id];
        Effect([Revise(session.id, Updated(g, session), g.url)], Acknowledged)
  }

  /** The checks made before the store is locked. */
  predicate MutationWellFormed(mutation: Mutation) {
    match mutation
    case SetApplicationBuffer(buffer) => |buffer| <= 512
    case SetProgressScore(score) => score <= 100
    case _ => true
  }

  function Mutated(info: MatchmakeSession, mutation: Mutation): Option<MatchmakeSession> {
    match mutation
    case SetOpen(open) => Some(info.(openParticipation := open))
    case SetApplicationBuffer(buffer) => Some(info.(applicationBuffer := buffer))
    case SetProgressScore(score) => Some(info.(progressScore := score))
    case SetAttributes(attributes) =>
      if |attributes| != |info.attributes| then None else Some(info.(attributes := attributes))
    case SetAttribute(index, value) =>
      if index >= |info.attributes| then None else Some(info.(attributes := info.attributes[index := value]))
    case SetState(state) => Some(info.(state := state))
  }

  function MutateEffect(s: State, pid: PID, gid: nat, mutation: Mutation): Effect {
    if !MutationWellFormed(mutation) then Refuse(InvalidArgument)
    else
      match OwnedError(s, pid, gid)
      case Some(error) => Refuse(error)
      case None =>
        match Mutated(s.sessions[gid].info, mutation)
        case None => Refuse(InvalidArgument)
        case Some(info) => Effect([Revise(gid, info, s.sessions[gid].url)], Acknowledged)
  }

  /** The caller, a participant, becomes the host. */
  function HostEffect(s: State, pid: PID, gid: nat, url: Option<string>): Effect {
    match ParticipantError(s, pid, gid)
    case Some(error) => Refuse(error)
    case None =>
      var g := s.sessions[gid];
      Effect([Revise(gid, g.info.(hostPID := pid), if url.Some? then url.value else g.url)], Acknowledged)
  }

  function UpdateSessionHostEffect(s: State, pid: PID, gid: nat, migrateOwner: bool): Effect {
    if !migrateOwner then HostEffect(s, pid, gid, None)
    else
      match ParticipantError(s, pid, gid)
      case Some(error) => Refuse(error)
      case None =>
        var g := s.sessions[gid];
        if !g.info.flags.changeOwnerByOtherHost then Refuse(InvalidOperation)
        else Effect([Revise(gid, g.info.(hostPID := pid, ownerPID := pid), g.url),
                     Send(OwnershipChanged(pid, gid, pid, Dedup(g.participants)))], Acknowledged)
  }

  /** The first candidate that participates; 0 when there is none. */
  function FirstParticipant(candidates: seq<PID>, participants: seq<PID>): PID {
    if candidates == [] then 0
    else if candidates[0] in participants then candidates[0]
    else FirstParticipant(candidates[1..], participants)
  }

  function MigrateEffect(s: State, pid: PID, gid: nat, candidates: seq<PID>): Effect {
    match OwnedError(s, pid, gid)
    case Some(error) => Refuse(error)
    case None =>
      var g := s.sessions[gid];
      var newOwner := FirstParticipant(candidates, g.participants);
      if newOwner == 0 then Refuse(InvalidOperation)
      else Effect([Revise(gid, g.info.(ownerPID := newOwner), g.url),
                   Send(OwnershipChanged(pid, gid, newOwner, Dedup(g.participants)))], Acknowledged)
  }

  /** The requests that take their caller out of every gathering first. */
  predicate LeavesAll(request: Request) {
    request.CreateMatchmakeSession? || request.RegisterGathering? || request.AutoMatchmake? || request.ConnectionEnded?
  }

  /** The listing orders a request carries must be orders the maps could have yielded. */
  ghost predicate Possible(env: Env, s: State, pid: PID, request: Request) {
    && (LeavesAll(request) ==> Enumerates(request.order, s.sessions.Keys))
    && (request.AutoMatchmake? ==>
          var t := ApplyAll(env, s, Departures(request.order, pid, Disconnect));
          && |request.listings| == (if request.criterias == [] then 1 else |request.criterias|)
          && forall i :: 0 <= i < |request.listings| ==> Enumerates(request.listings[i], t.sessions.Keys))
  }

  ghost function Handle(env: Env, s: State, pid: PID, request: Request): Effect
    requires Possible(env, s, pid, request)
  {
    match request
    case CreateMatchmakeSession(session, fits, count, message, key, now, order) =>
      if |message| > MAX_MESSAGE_LENGTH || !ValidSession(session, fits) then Refuse(InvalidArgument)
      else
        var departures := Departures(order, pid, Disconnect);
        CreateEffect(env, ApplyAll(env, s, departures), departures, pid, session, count, message, key, now)
    case RegisterGathering(session, fits, key, now, order) =>
      if !ValidSession(session, fits) then Refuse(InvalidArgument)
      else
        var departures := Departures(order, pid, Disconnect);
        CreateEffect(env, ApplyAll(env, s, departures), departures, pid, session, 1, "", key, now)
    case JoinMatchmakeSession(gid, count, message) => JoinEffect(env, s, pid, gid, count, message, true)
    case ParticipateIn(gid, message) => JoinEffect(env, s, pid, gid, 1, message, false)
    case AutoMatchmake(criterias, session, fits, message, key, now, order, listings) =>
      AutoMatchmakeEffect(env, s, pid, criterias, session, ValidSession(session, fits), message, key, now, order,
                          listings)
    case LeaveGathering(gid, kind, message) => LeaveEffect(s, pid, gid, kind, message)
    case ConnectionEnded(order) => Effect(Departures(order, pid, Disconnect), Acknowledged)
    case UnregisterGathering(gid) => UnregisterEffect(s, pid, gid)
    case UpdateSession(session, checked, fits) => UpdateEffect(s, pid, session, request.SettingsAllowed())
    case Mutate(gid, mutation) => MutateEffect(s, pid, gid, mutation)
    case LaunchSession(gid, url) => HostEffect(s, pid, gid, Some(url))
    case UpdateSessionURL(gid, url) => HostEffect(s, pid, gid, if url != "" then Some(url) else None)
    case UpdateSessionHost(gid, migrateOwner) => UpdateSessionHostEffect(s, pid, gid, migrateOwner)
    case MigrateGatheringOwnership(gid, candidates) => MigrateEffect(s, pid, gid, candidates)
  }

  ghost function Step(env: Env, s: State, pid: PID, request: Request): State
    requires Possible(env, s, pid, request)
  {
    ApplyAll(env, s, Handle(env, s, pid, request).moves)
  }

  /** A request and the player it comes from. */
  datatype Call = Call(pid: PID, request: Request)

  /** A run that the server could have gone through, from the empty store. */
  ghost predicate Reachable(env: Env, calls: seq<Call>)
    decreases |calls|, 0
  {
    calls == [] ||
    (Reachable(env, Init(calls)) && Possible(env, Final(env, Init(calls)), Last(calls).pid, Last(calls).request))
  }

  /** The store after a run. */
  ghost function Final(env: Env, calls: seq<Call>): State
    requires Reachable(env, calls)
    decreases |calls|, 1
  {
    if calls == [] then EMPTY
    else Step(env, Final(env, Init(calls)), Last(calls).pid, Last(calls).request)
  }
}
