/** The one decision on structure headers, taken while the two servers start up and consoles log in. */
module Detection {
  import opened Common
  import opened StructureHeader
  import opened LoginData

  /** The setting; anything but the three known words arms nothing and forces nothing. */
  datatype Mode = Auto | On | Off | Other

  /** A packet's RMC message, which is a request or a response. */
  datatype Message = Message(isRequest: bool, protocolID: UInt16, methodID: UInt32, parameters: Bytes)

  /** What a packet says about headers, if it is a login whose data says anything. */
  ghost function Verdict(message: Option<Message>): Option<bool> {
    if message.None? || !message.value.isRequest then None
    else
      var held := Located(message.value.protocolID, message.value.methodID, message.value.parameters);
      if held.None? then None
      else if IsChain(held.value.content) then Some(true)
      else if StartsWithString(held.value.content) then Some(false)
      else None
  }

  function Login(parameters: Bytes): Option<Message> { Some(Message(true, 0x0A, 0x02, parameters)) }

  function Registration(parameters: Bytes): Option<Message> {
    Some(Message(true, 0x0B, 0x04, parameters))
  }

  lemma WrappedDecides(message: Option<Message>, content: Bytes, header: bool)
    requires message.Some? && message.value.isRequest
    requires Located(message.value.protocolID, message.value.methodID, message.value.parameters)
             == Some(Held(content, []))
    requires if header then IsChain(content) else !IsChain(content) && StartsWithString(content)
    ensures Verdict(message) == Some(header)
  {
  }

  /** For either wire format of the login structure, a login decides what the console does. */
  lemma LoginsDecide(user: Bytes, typeName: Bytes, token: Bytes, fields: Bytes)
    requires |user| < TWO16 - 1 && |typeName| < TWO16 - 1
    requires 0 < |token| < TWO16 - 1 && Printable(token) && |fields| <= 8192
    ensures Verdict(Login(LoginEx(user, typeName, WithHeaders(LoginInfo(token, fields))))) == Some(true)
    ensures Verdict(Login(LoginEx(user, typeName, LoginInfo(token, fields)))) == Some(false)
  {
    var bare := LoginInfo(token, fields);
    var wrapped := WithHeaders(bare);
    FormatsAreToldApart(token, fields);
    LoginExRoundTrip(user, typeName, bare, []);
    LoginExRoundTrip(user, typeName, wrapped, []);
    hide LoginEx, Located, WithHeaders, LoginInfo, Verdict;
    assert LoginEx(user, typeName, bare) + [] == LoginEx(user, typeName, bare);
    assert LoginEx(user, typeName, wrapped) + [] == LoginEx(user, typeName, wrapped);
    WrappedDecides(Login(LoginEx(user, typeName, wrapped)), wrapped, true);
    WrappedDecides(Login(LoginEx(user, typeName, bare)), bare, false);
  }

  /** And so does a registration, with any station URLs. */
  lemma RegistrationsDecide(urls: seq<Bytes>, typeName: Bytes, token: Bytes, fields: Bytes)
    requires |urls| <= MAX_STATION_URLS && forall u :: u in urls ==> |u| < TWO16 - 1
    requires |typeName| < TWO16 - 1
    requires 0 < |token| < TWO16 - 1 && Printable(token) && |fields| <= 8192
    ensures Verdict(Registration(RegisterEx(urls, typeName, WithHeaders(LoginInfo(token, fields))))) == Some(true)
    ensures Verdict(Registration(RegisterEx(urls, typeName, LoginInfo(token, fields)))) == Some(false)
  {
    var bare := LoginInfo(token, fields);
    var wrapped := WithHeaders(bare);
    FormatsAreToldApart(token, fields);
    RegisterExRoundTrip(urls, typeName, bare, []);
    RegisterExRoundTrip(urls, typeName, wrapped, []);
    hide RegisterEx, Located, WithHeaders, LoginInfo, Verdict;
    assert RegisterEx(urls, typeName, bare) + [] == RegisterEx(urls, typeName, bare);
    assert RegisterEx(urls, typeName, wrapped) + [] == RegisterEx(urls, typeName, wrapped);
    WrappedDecides(Registration(RegisterEx(urls, typeName, wrapped)), wrapped, true);
    WrappedDecides(Registration(RegisterEx(urls, typeName, bare)), bare, false);
  }

  /** Nothing else decides: a verdict takes a request of one of these two methods, with an object that is a chain of
      frames, or else begins with a String. */
  lemma OnlyLoginsDecide(message: Option<Message>)
    requires Verdict(message).Some?
    ensures message.Some?
    ensures var m := message.value;
            && m.isRequest
            && ((m.protocolID == 0x0A && m.methodID == 0x02) || (m.protocolID == 0x0B && m.methodID == 0x04))
            && exists held :: Located(m.protocolID, m.methodID, m.parameters) == Some(held)
                              && (Verdict(message).value <==> IsChain(held.content))
                              && (IsChain(held.content) || StartsWithString(held.content))
  {
    hide IsChain, StartsWithString;
    var held := Located(message.value.protocolID, message.value.methodID, message.value.parameters).value;
  }

  // ---- The decision as a state machine ----------------------------------------------------------

  /** Each server's flag once the server is assigned, and the shared decision. */
  datatype Flags = Flags(authentication: Option<bool>, secure: Option<bool>, known: bool, inUse: bool, once: bool) {

    /** setStructureHeader, in its three steps: note the decision, then write it to each server that is assigned. */
    function Recorded(useHeader: bool): Flags { this.(known := true, inUse := useHeader) }

    function WroteAuthentication(): Flags {
      if authentication.Some? then this.(authentication := Some(inUse)) else this
    }

    function WroteSecure(): Flags { if secure.Some? then this.(secure := Some(inUse)) else this }

    function Set(useHeader: bool): Flags { Recorded(useHeader).WroteAuthentication().WroteSecure() }
  }

  /** The flags, the verdicts reached but not yet acted on, and how far the start-up and the decision have come:
      whether each server got its default, the setting was applied, and the decision was written to each server. */
  datatype World = World(flags: Flags, pending: seq<bool>, applied: bool,
                         authenticationReady: bool, secureReady: bool,
                         authenticationWritten: bool, secureWritten: bool)

  const START := World(Flags(None, None, false, false, false), [], false, false, false, false, false)

  datatype Step =
    | AssignAuthentication
    | DefaultAuthentication
    | ApplyMode
    | AssignSecure
    | DefaultSecure
    | Inspect(message: Option<Message>)
    | Decide(which: nat)
    | WriteAuthentication
    | WriteSecure

  /** The two servers start side by side, each in its own order; the setting is applied once, by the authentication
      server; packets reach servers that have started; a decision is written to one server after the other. */
  ghost predicate Legal(w: World, step: Step) {
    match step
    case AssignAuthentication => w.flags.authentication.None?
    case DefaultAuthentication => w.flags.authentication.Some? && !w.authenticationReady
    case ApplyMode => w.authenticationReady && !w.applied
    case AssignSecure => w.flags.secure.None?
    case DefaultSecure => w.flags.secure.Some? && !w.secureReady
    case Inspect(_) => w.authenticationReady || w.secureReady
    case Decide(which) => which < |w.pending|
    case WriteAuthentication => w.flags.known && !w.authenticationWritten
    case WriteSecure => w.authenticationWritten && !w.secureWritten
  }

  ghost function Next(mode: Mode, w: World, step: Step): World
    requires Legal(w, step)
  {
    match step
    case AssignAuthentication => w.(flags := w.flags.(authentication := Some(false)))
    case DefaultAuthentication => w.(flags := w.flags.(authentication := Some(true)), authenticationReady := true)
    case ApplyMode =>
      w.(flags := if mode == On then w.flags.Recorded(true)
                  else if mode == Off then w.flags.Recorded(false)
                  else w.flags,
         applied := true)
    case AssignSecure => w.(flags := w.flags.(secure := Some(false)))
    case DefaultSecure => w.(flags := w.flags.(secure := Some(true)), secureReady := true)
    case Inspect(message) =>
      if mode != Auto || w.flags.known || Verdict(message).None? then w
      else w.(pending := w.pending + [Verdict(message).value])
    case Decide(which) =>
      if w.flags.once then w else w.(flags := w.flags.Recorded(w.pending[which]).(once := true))
    case WriteAuthentication => w.(flags := w.flags.WroteAuthentication(), authenticationWritten := true)
    case WriteSecure => w.(flags := w.flags.WroteSecure(), secureWritten := true)
  }

  ghost predicate Run(mode: Mode, from: World, steps: seq<Step>, to: World) {
    if steps == [] then from == to
    else exists mid: World {:trigger Run(mode, from, Init(steps), mid)} ::
      Run(mode, from, Init(steps), mid) && Legal(mid, Last(steps)) && to == Next(mode, mid, Last(steps))
  }

  /** One step of the run comes before another. */
  predicate Precedes(steps: seq<Step>, first: Step, second: Step) {
    steps != [] && (Precedes(Init(steps), first, second) || (first in Init(steps) && Last(steps) == second))
  }

  lemma PrecedesGrows(steps: seq<Step>, step: Step, first: Step, second: Step)
    ensures Precedes(steps + [step], first, second) <==>
              Precedes(steps, first, second) || (first in steps && step == second)
    ensures first in steps + [step] <==> first in steps || step == first
  {
    assert Init(steps + [step]) == steps;
  }

  /** A server's flag: unset headers until the default turns them on, and what a later write says after that. */
  predicate Slot(flag: Option<bool>, ready: bool, written: bool, inTime: bool, inUse: bool) {
    && (ready ==> flag == Some(if inTime then inUse else true))
    && (!ready && !written ==> flag != Some(true))
    && (inTime ==> ready && written)
  }

  /** The guard and the decision agree with the setting. */
  predicate Decided(mode: Mode, w: World) {
    && (mode != Auto ==> w.pending == [] && !w.flags.once)
    && (mode == Auto ==> w.flags.known == w.flags.once)
    && (mode != Auto && w.flags.known ==> w.applied && w.flags.inUse == (mode == On) && (mode == On || mode == Off))
    && (w.authenticationWritten ==> w.flags.known)
    && (w.secureWritten ==> w.authenticationWritten)
    && (w.applied ==> w.authenticationReady)
    && (w.pending != [] || w.flags.known ==> w.authenticationReady || w.secureReady)
  }

  /** Each flag agrees with the steps taken; a forced setting always reaches the authentication server in time. */
  predicate AuthenticationFlag(mode: Mode, steps: seq<Step>, w: World) {
    var inTime := Precedes(steps, DefaultAuthentication, WriteAuthentication);
    && (w.authenticationReady <==> DefaultAuthentication in steps)
    && Slot(w.flags.authentication, w.authenticationReady, w.authenticationWritten, inTime, w.flags.inUse)
    && (mode != Auto && w.authenticationWritten ==> inTime)
  }

  predicate SecureFlag(steps: seq<Step>, w: World) {
    && (w.secureReady <==> DefaultSecure in steps)
    && Slot(w.flags.secure, w.secureReady, w.secureWritten, Precedes(steps, DefaultSecure, WriteSecure), w.flags.inUse)
  }

  /** A decision needs a server that has started, so it reaches at least that one in time. */
  predicate ReachesOne(steps: seq<Step>, w: World) {
    var inTime := Precedes(steps, DefaultAuthentication, WriteAuthentication);
    && (w.authenticationWritten ==> inTime || w.secureReady)
    && (w.secureWritten ==> inTime || Precedes(steps, DefaultSecure, WriteSecure))
  }

  predicate Coherent(mode: Mode, steps: seq<Step>, w: World) {
    Decided(mode, w) && AuthenticationFlag(mode, steps, w) && SecureFlag(steps, w) && ReachesOne(steps, w)
  }

  lemma StepKeepsDecided(mode: Mode, w: World, step: Step)
    requires Decided(mode, w) && Legal(w, step)
    ensures Decided(mode, Next(mode, w, step))
    ensures w.flags.known ==> Next(mode, w, step).flags.known && Next(mode, w, step).flags.inUse == w.flags.inUse
  {
    hide Verdict;
  }

  lemma StepKeepsAuthentication(mode: Mode, steps: seq<Step>, w: World, step: Step)
    requires Decided(mode, w) && AuthenticationFlag(mode, steps, w) && Legal(w, step)
    ensures AuthenticationFlag(mode, steps + [step], Next(mode, w, step))
  {
    StepKeepsDecided(mode, w, step);
    PrecedesGrows(steps, step, DefaultAuthentication, WriteAuthentication);
    hide Verdict, Precedes;
  }

  lemma StepKeepsSecure(mode: Mode, steps: seq<Step>, w: World, step: Step)
    requires Decided(mode, w) && SecureFlag(steps, w) && Legal(w, step)
    ensures SecureFlag(steps + [step], Next(mode, w, step))
  {
    StepKeepsDecided(mode, w, step);
    PrecedesGrows(steps, step, DefaultSecure, WriteSecure);
    hide Verdict, Precedes;
  }

  lemma StepKeepsReach(mode: Mode, steps: seq<Step>, w: World, step: Step)
    requires Coherent(mode, steps, w) && Legal(w, step)
    ensures ReachesOne(steps + [step], Next(mode, w, step))
  {
    PrecedesGrows(steps, step, DefaultAuthentication, WriteAuthentication);
    PrecedesGrows(steps, step, DefaultSecure, WriteSecure);
    hide Verdict, Precedes;
  }

  lemma StepKeepsCoherent(mode: Mode, steps: seq<Step>, w: World, step: Step)
    requires Coherent(mode, steps, w) && Legal(w, step)
    ensures Coherent(mode, steps + [step], Next(mode, w, step))
  {
    hide Decided, AuthenticationFlag, SecureFlag, ReachesOne, Next, Legal;
    StepKeepsReach(mode, steps, w, step);
    StepKeepsDecided(mode, w, step);
    StepKeepsAuthentication(mode, steps, w, step);
    StepKeepsSecure(mode, steps, w, step);
  }

  /** The last step of a run. */
  lemma RunLast(mode: Mode, from: World, steps: seq<Step>, w: World) returns (mid: World)
    requires Run(mode, from, steps, w) && steps != []
    ensures Run(mode, from, Init(steps), mid) && Legal(mid, Last(steps)) && w == Next(mode, mid, Last(steps))
  {
    hide Next, Legal;
    mid :| Run(mode, from, Init(steps), mid) && Legal(mid, Last(steps)) && w == Next(mode, mid, Last(steps));
  }

  lemma RunOne(mode: Mode, from: World, steps: seq<Step>, w: World, step: Step)
    requires Run(mode, from, steps, w) && Legal(w, step)
    ensures Run(mode, from, steps + [step], Next(mode, w, step))
  {
    assert Init(steps + [step]) == steps;
  }

  lemma {:induction false} RunIsCoherent(mode: Mode, steps: seq<Step>, w: World)
    requires Run(mode, START, steps, w)
    ensures Coherent(mode, steps, w)
  {
    if steps == [] {
    } else {
      hide Run, Coherent, Next, Legal;
      var mid := RunLast(mode, START, steps, w);
      RunIsCoherent(mode, Init(steps), mid);
      StepKeepsCoherent(mode, Init(steps), mid, Last(steps));
      assert Init(steps) + [Last(steps)] == steps;
    }
  }

  /** What later steps cannot take back: the decision, and the flag of a server that had its default
      and the decision. */
  ghost predicate Stands(w: World, to: World) {
    && (w.flags.known ==> to.flags.known && to.flags.inUse == w.flags.inUse)
    && (w.authenticationReady ==> to.authenticationReady) && (w.secureReady ==> to.secureReady)
    && (w.authenticationWritten ==> to.authenticationWritten) && (w.secureWritten ==> to.secureWritten)
    && (w.authenticationReady && w.authenticationWritten ==> to.flags.authentication == w.flags.authentication)
    && (w.secureReady && w.secureWritten ==> to.flags.secure == w.flags.secure)
  }

  lemma StepStands(mode: Mode, before: seq<Step>, w: World, step: Step)
    requires Coherent(mode, before, w) && Legal(w, step)
    ensures Stands(w, Next(mode, w, step))
  {
    hide Verdict, Precedes;
  }

  lemma InitThenLast(before: seq<Step>, after: seq<Step>)
    requires after != []
    ensures before + Init(after) + [Last(after)] == before + after
  {
  }

  /** Once taken, the decision stands, whatever logins follow, and so does the flag of each server
      that it reached in time. */
  lemma {:induction false} DecisionStands(mode: Mode, before: seq<Step>, w: World, after: seq<Step>, to: World)
    requires Run(mode, START, before, w) && Run(mode, w, after, to)
    ensures Stands(w, to) && Run(mode, START, before + after, to)
  {
    if after == [] {
      assert before + after == before;
    } else {
      hide Run, Coherent, Next, Legal;
      var mid := RunLast(mode, w, after, to);
      DecisionStands(mode, before, w, Init(after), mid);
      RunIsCoherent(mode, before + Init(after), mid);
      StepStands(mode, before + Init(after), mid, Last(after));
      RunOne(mode, START, before + Init(after), mid, Last(after));
      InitThenLast(before, after);
    }
  }

  /** Both servers have their default and the decision was written to both. */
  predicate Settled(w: World) { w.authenticationReady && w.secureReady && w.secureWritten }

  /** In the end the servers agree exactly when headers are on, or both had their default before
      the decision reached them. */
  lemma ServersAgreeExactly(mode: Mode, steps: seq<Step>, w: World)
    requires Run(mode, START, steps, w) && Settled(w)
    ensures w.flags.authentication == w.flags.secure
            <==> w.flags.inUse || (Precedes(steps, DefaultAuthentication, WriteAuthentication)
                                   && Precedes(steps, DefaultSecure, WriteSecure))
  {
    RunIsCoherent(mode, steps, w);
    hide Precedes;
  }

  /** Forced off, that is whether the secure server has its default in time: the other one always does. */
  lemma ForcedOffAgreesExactly(steps: seq<Step>, w: World)
    requires Run(Off, START, steps, w) && Settled(w)
    ensures w.flags.authentication == w.flags.secure == Some(false) <==> Precedes(steps, DefaultSecure, WriteSecure)
  {
    RunIsCoherent(Off, steps, w);
    hide Precedes;
  }

  /** Before any decision a server uses headers exactly when it has its default. */
  lemma UndecidedFlags(mode: Mode, steps: seq<Step>, w: World)
    requires Run(mode, START, steps, w) && !w.flags.known
    ensures w.flags.authentication == Some(true) <==> w.authenticationReady
    ensures w.flags.secure == Some(true) <==> w.secureReady
  {
    RunIsCoherent(mode, steps, w);
    hide Precedes;
  }

  /** Forced off, the decision is taken and written by the authentication server as it starts. */
  const FORCING: seq<Step> := [DefaultAuthentication, ApplyMode, WriteAuthentication, WriteSecure]

  lemma Forces(from: World, steps: seq<Step>, w: World)
    requires Run(Off, from, steps, w) && w.flags.authentication.Some? && !w.authenticationReady
    requires !w.applied && !w.flags.known && !w.authenticationWritten && !w.secureWritten
    ensures var secure := if w.flags.secure.Some? then Some(false) else None;
            Run(Off, from, steps + FORCING,
                World(Flags(Some(false), secure, true, false, w.flags.once), w.pending, true,
                      true, w.secureReady, true, true))
  {
    hide Run, Verdict;
    var w1 := Next(Off, w, DefaultAuthentication);
    var w2 := Next(Off, w1, ApplyMode);
    var w3 := Next(Off, w2, WriteAuthentication);
    RunOne(Off, from, steps, w, DefaultAuthentication);
    RunOne(Off, from, steps + [DefaultAuthentication], w1, ApplyMode);
    RunOne(Off, from, steps + [DefaultAuthentication] + [ApplyMode], w2, WriteAuthentication);
    RunOne(Off, from, steps + [DefaultAuthentication] + [ApplyMode] + [WriteAuthentication], w3, WriteSecure);
    assert steps + [DefaultAuthentication] + [ApplyMode] + [WriteAuthentication] + [WriteSecure] == steps + FORCING;
  }

  const OPEN: World := World(Flags(Some(false), None, false, false, false), [], false, false, false, false, false)
  const BOTH_OPEN: World := OPEN.(flags := OPEN.flags.(secure := Some(false)))
  const SPLIT: World := World(Flags(Some(false), Some(true), true, false, false), [], true, true, true, true, true)

  lemma Opens()
    ensures Run(Off, START, [AssignAuthentication], OPEN)
    ensures Run(Off, START, [AssignAuthentication, AssignSecure], BOTH_OPEN)
  {
    RunOne(Off, START, [], START, AssignAuthentication);
    assert [] + [AssignAuthentication] == [AssignAuthentication];
    RunOne(Off, START, [AssignAuthentication], OPEN, AssignSecure);
    assert [AssignAuthentication] + [AssignSecure] == [AssignAuthentication, AssignSecure];
  }

  /** Forced off, a secure server that starts last is left framing structures the other one does not. */
  lemma ForcedOffCanSplit()
    ensures exists steps: seq<Step> :: Run(Off, START, steps, SPLIT)
  {
    Opens();
    Forces(START, [AssignAuthentication], OPEN);
    hide Next, Legal, Run;
    SecureFollows([AssignAuthentication] + FORCING);
  }

  lemma SecureFollows(steps: seq<Step>)
    requires Run(Off, START, steps,
                 World(Flags(Some(false), None, true, false, false), [], true, true, false, true, true))
    ensures Run(Off, START, steps + [AssignSecure] + [DefaultSecure], SPLIT)
  {
    var w := World(Flags(Some(false), None, true, false, false), [], true, true, false, true, true);
    RunOne(Off, START, steps, w, AssignSecure);
    RunOne(Off, START, steps + [AssignSecure], Next(Off, w, AssignSecure), DefaultSecure);
  }

  /** It need not start last: when both servers exist before the decision, a default that follows overwrites it. */
  lemma ForcedOffCanBeOverwritten()
    ensures Run(Off, START, [AssignAuthentication, AssignSecure], BOTH_OPEN)
    ensures Run(Off, START, [AssignAuthentication, AssignSecure] + FORCING + [DefaultSecure], SPLIT)
  {
    Opens();
    Forces(START, [AssignAuthentication, AssignSecure], BOTH_OPEN);
    var w := World(Flags(Some(false), Some(false), true, false, false), [], true, true, false, true, true);
    RunOne(Off, START, [AssignAuthentication, AssignSecure] + FORCING, w, DefaultSecure);
  }

  /** Detecting, with the secure server starting after the first console has logged in on the other one. */
  function LoginFirst(message: Option<Message>): seq<Step> {
    [AssignAuthentication, DefaultAuthentication, ApplyMode] + [Inspect(message)] + [Decide(0)] + [WriteAuthentication]
    + [WriteSecure] + [AssignSecure] + [DefaultSecure]
  }

  const LISTENING: World := World(Flags(Some(true), None, false, false, false), [], true, true, false, false, false)
  const DECIDING: World := World(Flags(Some(true), None, true, false, true), [false], true, true, false, false, false)
  const DETECTED: World := World(Flags(Some(false), None, true, false, true), [false], true, true, false, true, true)
  const DETECTED_SPLIT: World :=
    World(Flags(Some(false), Some(true), true, false, true), [false], true, true, true, true, true)

  lemma Listens()
    ensures Run(Auto, START, [AssignAuthentication, DefaultAuthentication, ApplyMode], LISTENING)
  {
    var w1 := Next(Auto, START, AssignAuthentication);
    var w2 := Next(Auto, w1, DefaultAuthentication);
    assert Next(Auto, w2, ApplyMode) == LISTENING && Legal(w1, DefaultAuthentication) && Legal(w2, ApplyMode);
    RunOne(Auto, START, [], START, AssignAuthentication);
    hide Run, Next, Legal;
    assert [] + [AssignAuthentication] == [AssignAuthentication];
    RunOne(Auto, START, [AssignAuthentication], w1, DefaultAuthentication);
    RunOne(Auto, START, [AssignAuthentication] + [DefaultAuthentication], w2, ApplyMode);
    assert [AssignAuthentication] + [DefaultAuthentication] + [ApplyMode]
        == [AssignAuthentication, DefaultAuthentication, ApplyMode];
  }

  lemma Decides(steps: seq<Step>, message: Option<Message>)
    requires Run(Auto, START, steps, LISTENING) && Verdict(message) == Some(false)
    ensures Run(Auto, START, steps + [Inspect(message)] + [Decide(0)], DECIDING)
  {
    hide Run, Verdict;
    var w := LISTENING.(pending := [false]);
    assert Next(Auto, LISTENING, Inspect(message)) == w;
    RunOne(Auto, START, steps, LISTENING, Inspect(message));
    RunOne(Auto, START, steps + [Inspect(message)], w, Decide(0));
  }

  lemma Writes(steps: seq<Step>)
    requires Run(Auto, START, steps, DECIDING)
    ensures Run(Auto, START, steps + [WriteAuthentication] + [WriteSecure], DETECTED)
  {
    hide Run;
    RunOne(Auto, START, steps, DECIDING, WriteAuthentication);
    RunOne(Auto, START, steps + [WriteAuthentication], Next(Auto, DECIDING, WriteAuthentication), WriteSecure);
  }

  lemma SecureFollowsDetection(steps: seq<Step>)
    requires Run(Auto, START, steps, DETECTED)
    ensures Run(Auto, START, steps + [AssignSecure] + [DefaultSecure], DETECTED_SPLIT)
  {
    hide Run;
    RunOne(Auto, START, steps, DETECTED, AssignSecure);
    RunOne(Auto, START, steps + [AssignSecure], Next(Auto, DETECTED, AssignSecure), DefaultSecure);
  }

  /** Detection splits the servers too: any console without headers that logs in before the secure server has its
      default leaves that one framing structures. */
  lemma DetectedCanSplit(user: Bytes, typeName: Bytes, token: Bytes, fields: Bytes)
    requires |user| < TWO16 - 1 && |typeName| < TWO16 - 1
    requires 0 < |token| < TWO16 - 1 && Printable(token) && |fields| <= 8192
    ensures Run(Auto, START, LoginFirst(Login(LoginEx(user, typeName, LoginInfo(token, fields)))), DETECTED_SPLIT)
    ensures Settled(DETECTED_SPLIT) && DETECTED_SPLIT.flags.authentication != DETECTED_SPLIT.flags.secure
  {
    LoginsDecide(user, typeName, token, fields);
    var message := Login(LoginEx(user, typeName, LoginInfo(token, fields)));
    hide Run, Verdict, LoginEx, LoginInfo, Login;
    var listening := [AssignAuthentication, DefaultAuthentication, ApplyMode];
    Listens();
    Decides(listening, message);
    Writes(listening + [Inspect(message)] + [Decide(0)]);
    SecureFollowsDetection(listening + [Inspect(message)] + [Decide(0)] + [WriteAuthentication] + [WriteSecure]);
  }

  // ---- The same with the package's variables ----------------------------------------------------

  class Server {
    var useStructureHeader: bool

    /** NewPRUDPServer: a server starts without headers. */
    constructor ()
      ensures !useStructureHeader
    {
      useStructureHeader := false;
    }
  }

  class Detector {
    const mode: Mode
    var authentication: Server?
    var secure: Server?
    var known: bool
    var inUse: bool
    var once: bool

    ghost predicate Valid()
      reads this
    {
      authentication != null ==> authentication != secure
    }

    ghost function Abs(): Flags
      reads this, authentication, secure
    {
      Flags(if authentication == null then None else Some(authentication.useStructureHeader),
            if secure == null then None else Some(secure.useStructureHeader),
            known, inUse, once)
    }

    constructor (mode: Mode)
      ensures Valid() && Abs() == START.flags && this.mode == mode
    {
      this.mode := mode;
      authentication, secure := null, null;
      known, inUse, once := false, false, false;
    }

    method AssignAuthenticationServer()
      requires Valid()
      modifies this
      ensures Valid() && Abs() == old(Abs()).(authentication := Some(false))
      ensures fresh(authentication) && secure == old(secure)
    {
      authentication := new Server();
    }

    method DefaultAuthenticationHeader()
      requires Valid() && authentication != null
      modifies authentication
      ensures Valid() && Abs() == old(Abs()).(authentication := Some(true))
    {
      authentication.useStructureHeader := true;
    }

    method AssignSecureServer()
      requires Valid()
      modifies this
      ensures Valid() && Abs() == old(Abs()).(secure := Some(false))
      ensures fresh(secure) && authentication == old(authentication)
    {
      secure := new Server();
    }

    method DefaultSecureHeader()
      requires Valid() && secure != null
      modifies secure
      ensures Valid() && Abs() == old(Abs()).(secure := Some(true))
    {
      secure.useStructureHeader := true;
    }

    method SetStructureHeader(useHeader: bool)
      requires Valid()
      modifies this, authentication, secure
      ensures Valid() && Abs() == old(Abs()).Set(useHeader)
      ensures authentication == old(authentication) && secure == old(secure)
    {
      RecordDecision(useHeader);
      WriteAuthenticationHeader();
      WriteSecureHeader();
    }

    method RecordDecision(useHeader: bool)
      modifies this
      ensures Abs() == old(Abs()).Recorded(useHeader)
      ensures authentication == old(authentication) && secure == old(secure)
    {
      known := true;
      inUse := useHeader;
    }

    method WriteAuthenticationHeader()
      requires Valid()
      modifies authentication
      ensures Abs() == old(Abs()).WroteAuthentication()
    {
      if authentication != null { authentication.useStructureHeader := inUse; }
    }

    method WriteSecureHeader()
      requires Valid()
      modifies secure
      ensures Abs() == old(Abs()).WroteSecure()
    {
      if secure != null { secure.useStructureHeader := inUse; }
    }

    method ApplyStructureHeaderMode()
      requires Valid()
      modifies this, authentication, secure
      ensures Valid() && authentication == old(authentication) && secure == old(secure)
      ensures Abs() == if mode == On then old(Abs()).Set(true) else if mode == Off then old(Abs()).Set(false)
                       else old(Abs())
    {
      match mode {
        case On => SetStructureHeader(true);
        case Off => SetStructureHeader(false);
        case Auto =>
        case Other =>
      }
    }

    /** The first half of detectStructureHeader: what it will decide, if anything. */
    method Inspect(message: Option<Message>) returns (verdict: Option<bool>)
      ensures verdict == if mode != Auto || known then None else Verdict(message)
    {
      if mode != Auto { return None; }
      var decided := known;
      if decided { return None; }
      if message.None? || !message.value.isRequest { return None; }
      var request := message.value;
      var content, found := LoginDataObject(request.protocolID, request.methodID, request.parameters);
      if !found { return None; }
      var useHeader, ok := ObjectHasStructureHeader(content);
      if !ok { return None; }
      return Some(useHeader);
    }

    /** Its second half, which other logins may run beside. */
    method Decide(useHeader: bool)
      requires Valid()
      modifies this, authentication, secure
      ensures Valid() && authentication == old(authentication) && secure == old(secure)
      ensures Abs() == if old(once) then old(Abs()) else old(Abs()).Set(useHeader).(once := true)
    {
      if !once {
        once := true;
        SetStructureHeader(useHeader);
      }
    }
  }
}
