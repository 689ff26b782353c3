/** The gathering store as a value: sessions, notifications, and the moves that change them. */
module Gatherings {
  import opened Common

  /** A principal ID. The store compares PIDs as 64-bit numbers. */
  type PID = nat

  /** The three gathering flags the server tests. */
  datatype Flags = Flags(notifyAll: bool, notifyAllReproducibly: bool, changeOwnerByOtherHost: bool)

  /** The session record the game describes and the server keeps up to date. */
  datatype MatchmakeSession = MatchmakeSession(
    id: nat,
    ownerPID: PID,
    hostPID: PID,
    minimumParticipants: UInt16,
    maximumParticipants: UInt16,
    participationPolicy: nat,
    flags: Flags,
    state: nat,
    gameMode: UInt32,
    attributes: seq<UInt32>,
    openParticipation: bool,
    matchmakeSystemType: UInt32,
    applicationBuffer: seq<nat>,
    participationCount: UInt32,
    progressScore: nat,
    sessionKey: nat,
    startedTime: nat,
    userPassword: string,
    userPasswordEnabled: bool,
    systemPasswordEnabled: bool)

  /** A live gathering: the record, one PID for every player on every console, and the host's URL. */
  datatype Gathering = Gathering(info: MatchmakeSession, participants: seq<PID>, url: string) {
    /** The head count as the server reads it, in 32 bits. */
    function HeadCount(): UInt32 { U32(|participants|) }
  }

  datatype ParticipationKind = Participate | CancelParticipation | Disconnect | EndParticipation

  /** The event kinds that say somebody left. */
  type LeaveKind = kind: ParticipationKind | kind != Participate witness Disconnect

  datatype Event =
    | Participation(source: PID, kind: ParticipationKind, gid: nat, subject: PID, message: string,
                    count: nat, targets: seq<PID>)
    | Unregistered(source: PID, gid: nat, targets: seq<PID>)
    | OwnershipChanged(source: PID, gid: nat, newOwner: PID, targets: seq<PID>)

  /** What the store holds, and every notification it has sent so far. */
  datatype State = State(sessions: map<nat, Gathering>, nextGatheringID: UInt32, log: seq<Event>)

  const EMPTY: State := State(map[], 1, [])

  /** The surroundings that never change while the server runs. */
  datatype Env = Env(endpoint: bool, allowPublic: bool, friendLookup: bool, friendPIDs: nat -> seq<nat>)

  datatype Error =
    | SessionVoid | AlreadyParticipatedGathering | SessionFull | PermissionDenied
    | NotFriend | NotImplemented | InvalidArgument | InvalidOperation

  // ---- Joining ----------------------------------------------------------------------------------

  /** A join request for nobody is a join request for one. */
  function Heads(vacantParticipants: UInt16): UInt16 {
    if vacantParticipants == 0 then 1 else vacantParticipants
  }

  predicate Full(g: Gathering, heads: UInt16) {
    g.info.maximumParticipants != 0 && U32(g.HeadCount() + heads) > g.info.maximumParticipants
  }

  /** Why JoinLocked refuses a player, if it does. */
  function JoinError(g: Gathering, pid: PID, vacantParticipants: UInt16): Option<Error> {
    if pid in g.participants then Some(AlreadyParticipatedGathering)
    else if Full(g, Heads(vacantParticipants)) then Some(SessionFull)
    else None
  }

  /** Whether the policy "friends of the owner only" and the open flag let a PID in. */
  function CanJoin(env: Env, pid: PID, info: MatchmakeSession): Option<Error> {
    if !info.openParticipation then Some(PermissionDenied)
    else if info.participationPolicy != 98 then None
    else if !env.friendLookup then Some(NotImplemented)
    else if U32(info.ownerPID) !in env.friendPIDs(U32(pid)) then Some(NotFriend)
    else None
  }

  function Joined(g: Gathering, pid: PID, heads: UInt16): Gathering {
    var participants := g.participants + Copies(pid, heads);
    g.(participants := participants, info := g.info.(participationCount := U32(|participants|)))
  }

  /** notifyParticipation: nothing is sent without an endpoint or without targets. */
  function Announce(env: Env, event: Event): seq<Event> {
    if !env.endpoint || event.targets == [] then [] else [event]
  }

  /** The announcement of a join that pid just made, given the gathering after it. */
  function JoinTargets(after: Gathering, pid: PID): seq<PID> {
    if after.info.flags.notifyAll || after.info.flags.notifyAllReproducibly then Dedup(after.participants)
    else if pid == after.info.ownerPID then []
    else [after.info.ownerPID]
  }

  /** The players already there, announced to the newcomer one by one. */
  function Replays(env: Env, gid: nat, pid: PID, known: seq<PID>, message: string, total: nat): seq<Event> {
    if known == [] then []
    else Replays(env, gid, pid, Init(known), message, total)
         + Announce(env, Participation(pid, Participate, gid, Last(known), message, total, [pid]))
  }

  function JoinEvents(env: Env, before: Gathering, pid: PID, heads: UInt16, message: string): seq<Event> {
    var after := Joined(before, pid, heads);
    Announce(env, Participation(pid, Participate, before.info.id, pid, message, after.HeadCount(),
                                JoinTargets(after, pid)))
    + if before.info.flags.notifyAllReproducibly
      then Replays(env, before.info.id, pid, Dedup(before.participants), message, after.HeadCount())
      else []
  }

  // ---- Leaving ----------------------------------------------------------------------------------

  /** The participants that are not pid, in their old order. */
  function Without(participants: seq<PID>, pid: PID): seq<PID> {
    if participants == [] then []
    else Without(Init(participants), pid) + (if Last(participants) == pid then [] else [Last(participants)])
  }

  /** The gathering a leaver leaves behind; hosting falls back to the owner. */
  function Left(g: Gathering, pid: PID): Gathering {
    var remaining := Without(g.participants, pid);
    g.(participants := remaining,
       info := g.info.(participationCount := U32(|remaining|),
                       hostPID := if g.info.hostPID == pid then g.info.ownerPID else g.info.hostPID))
  }

  /** The owner's departure, or the last player's, ends the gathering. */
  predicate EndsWith(g: Gathering, pid: PID) {
    g.info.ownerPID == pid || Without(g.participants, pid) == []
  }

  function LeaveEvents(env: Env, g: Gathering, pid: PID, kind: LeaveKind, message: string): seq<Event> {
    var remaining := Without(g.participants, pid);
    Announce(env, Participation(pid, kind, g.info.id, pid, message, U32(|remaining|), Dedup(remaining)))
  }

  // ---- Moves ------------------------------------------------------------------------------------

  /** The ways in which a handler changes the store. A handler's effect is a short list of moves. */
  datatype Move =
    | Leave(gid: nat, pid: PID, kind: LeaveKind, message: string)
    | Admit(gid: nat, pid: PID, heads: UInt16, message: string)
    | Open(request: MatchmakeSession, pid: PID, heads: UInt16, message: string, key: nat, now: nat)
    | Burn
    | Destroy(gid: nat)
    | Revise(gid: nat, info: MatchmakeSession, url: string)
    | Send(event: Event)

  /** CreateLocked: the record of a new gathering, owned and hosted by its creator. */
  function Opened(request: MatchmakeSession, gid: nat, pid: PID, key: nat, now: nat): Gathering {
    Gathering(request.(id := gid, ownerPID := pid, hostPID := pid, startedTime := now, sessionKey := key,
                       userPasswordEnabled := |request.userPassword| > 0, systemPasswordEnabled := false),
              [], "")
  }

  function CreateLocked(s: State, request: MatchmakeSession, pid: PID, key: nat, now: nat): State {
    s.(sessions := s.sessions[s.nextGatheringID := Opened(request, s.nextGatheringID, pid, key, now)],
       nextGatheringID := U32(s.nextGatheringID + 1))
  }

  function JoinLocked(env: Env, s: State, gid: nat, pid: PID, heads: UInt16, message: string): State
    requires gid in s.sessions
  {
    var g := s.sessions[gid];
    s.(sessions := s.sessions[gid := Joined(g, pid, heads)], log := s.log + JoinEvents(env, g, pid, heads, message))
  }

  function LeaveLocked(env: Env, s: State, gid: nat, pid: PID, kind: LeaveKind, message: string): State
    requires gid in s.sessions
  {
    var g := s.sessions[gid];
    if pid !in g.participants then s
    else s.(sessions := if EndsWith(g, pid) then s.sessions - {gid} else s.sessions[gid := Left(g, pid)],
            log := s.log + LeaveEvents(env, g, pid, kind, message))
  }

  function Apply(env: Env, s: State, move: Move): State {
    match move
    case Leave(gid, pid, kind, message) =>
      if gid in s.sessions then LeaveLocked(env, s, gid, pid, kind, message) else s
    case Admit(gid, pid, heads, message) =>
      if gid in s.sessions then JoinLocked(env, s, gid, pid, heads, message) else s
    case Open(request, pid, heads, message, key, now) =>
      JoinLocked(env, CreateLocked(s, request, pid, key, now), s.nextGatheringID, pid, heads, message)
    case Burn =>
      s.(sessions := s.sessions - {s.nextGatheringID}, nextGatheringID := U32(s.nextGatheringID + 1))
    case Destroy(gid) => s.(sessions := s.sessions - {gid})
    case Revise(gid, info, url) =>
      if gid in s.sessions
      then s.(sessions := s.sessions[gid := s.sessions[gid].(info := info, url := url)])
      else s
    case Send(event) => s.(log := s.log + [event])
  }

  function ApplyAll(env: Env, s: State, moves: seq<Move>): State {
    if moves == [] then s else Apply(env, ApplyAll(env, s, Init(moves)), Last(moves))
  }

  lemma ApplyAllSnoc(env: Env, s: State, moves: seq<Move>, move: Move)
    ensures ApplyAll(env, s, moves + [move]) == Apply(env, ApplyAll(env, s, moves), move)
  {
    assert Init(moves + [move]) == moves;
  }

  /** RemoveConnectionLocked over the gatherings in the order the map happened to yield them. */
  function Departures(order: seq<nat>, pid: PID, kind: LeaveKind): seq<Move> {
    if order == [] then [] else Departures(Init(order), pid, kind) + [Leave(Last(order), pid, kind, "")]
  }

  /** The gatherings listed by order, looked up. */
  function Lookup(sessions: map<nat, Gathering>, order: seq<nat>): seq<Gathering> {
    if order == [] then []
    else Lookup(sessions, Init(order)) + (if Last(order) in sessions then [sessions[Last(order)]] else [])
  }
}
