/** The acceptance run as interleaved atomic steps: remotes that send commands and record them
    through lossy sinks, the hold directory, independent observers, and a TV whose reported status
    changes at any time. `timeline` and the `...At` fields are history: no step reads them. */
module AcceptanceRun {
  import opened Domain
  import opened Confirmation
  import opened CommandTrace

  /** What really happened, in order. No participant and no classifier sees this list. */
  datatype Happening =
    | TransportEntered(requestId: RequestId, session: Option<nat>)
    | TransportReturned(requestId: RequestId)
    | HoldFound(observer: nat)
    | ReportedToObserver(observer: nat, session: Option<nat>)
    | HoldReleased(requestId: RequestId)
    | ConfirmationRead(requestId: RequestId, session: Option<nat>)

  // ---------------------------------------------------------------- one command

  datatype Phase =
    | Prepared | Captured | Announced | InTransport | Responded | Holding | Held | Verifying
    | Finished  // its outcome is decided
    | Escaped   // an exception that is not a control error left the command

  datatype TransportOutcome =
    | Accepted
    | Refused(code: ErrorCode, notSent: bool)  // a control error
    | Crashed                                  // any other exception

  /** The hold of a sent command's confirmation and how it ended. */
  datatype Hold = NoHold | OnHold | HoldExpired | HoldBroken | HoldEnded(token: Token)

  /** How a command's trace ends. */
  datatype Ending =
    | Open
    | BeforeSend(session: Option<nat>, code: ErrorCode)
    | AtSend(outcome: TransportOutcome)
    | Unchecked
    | ConfirmedOn(session: Option<nat>)
    | NotConfirmed(session: Option<nat>, error: Option<ErrorCode>)
    | ReadEscapes

  /** One command invocation. Its trace is `Script()`, of which the first `recorded` emissions were
      passed to the recorder; `log` is what the recorder stamped and `file` what the sink kept. */
  datatype Cmd = Cmd(
    id: RequestId, process: nat, command: Command, order: Option<OrderId>,
    gated: bool, checks: bool, args: Expectation,
    phase: Phase,
    target: Option<nat>, expectation: Expectation,
    seen: Option<Contradiction>, changeNoted: bool,
    lastSession: Option<nat>, lastError: Option<ErrorCode>,
    captured: bool, sent: bool, answered: bool, hold: Hold, observed: seq<Emission>, ending: Ending,
    recorded: nat, log: seq<TraceEvent>, file: seq<TraceEvent>,
    enteredAt: nat, returnedAt: nat, verifyFrom: nat, readAt: nat)
  {
    function PreEvents(): seq<Emission> { if captured then [OnSession(PreStatus, target)] else [] }
    function SendEvents(): seq<Emission> { if sent then [OnSession(SendAttempt, target)] else [] }
    function AnswerEvents(): seq<Emission> { if answered then [OnSession(TransportResponse, target)] else [] }

    function HoldEvents(): seq<Emission> {
      match hold
      case NoHold => []
      case OnHold => [OnSession(ConfirmationHeld, target)]
      case HoldExpired => [OnSession(ConfirmationHeld, target), OnSession(ConfirmationHoldTimeout, target)]
      case HoldBroken => [OnSession(ConfirmationHeld, target), OnSession(ConfirmationHoldFailed, target)]
      case HoldEnded(token) =>
        [OnSession(ConfirmationHeld, target), Emission(ConfirmationReleased, target, None, Some(token))]
    }

    function EndEvents(): seq<Emission> {
      match ending
      case Open => []
      case BeforeSend(session, code) =>
        [Emission(CommandFailed, session, Some(code), None), Emission(NotSent, session, Some(code), None)]
      case AtSend(outcome) => FailedSend(target, outcome)
      case Unchecked => [Plain(ConfirmationSkipped)]
      case ConfirmedOn(session) => [OnSession(CommandConfirmed, session)]
      case NotConfirmed(session, error) => [Emission(CommandUnconfirmed, session, error, None)]
      case ReadEscapes => [Plain(ConfirmationUnexpectedError)]
    }

    function Script(): seq<Emission> {
      [Plain(CommandPrepared)] + PreEvents() + SendEvents() + AnswerEvents() + HoldEvents() + observed + EndEvents()
    }

    predicate Idle() { recorded == |Script()| }

    function Subject(): CommandTrace.Subject { CommandTrace.Subject(id, Some(command), order) }
  }

  /** `_send`: the two events of a transport call that did not answer. */
  function FailedSend(session: Option<nat>, outcome: TransportOutcome): seq<Emission> {
    match outcome
    case Accepted => []
    case Refused(code, notSent) =>
      [Emission(CommandFailed, session, Some(code), None), Emission(SendVerdict(code, notSent), session, Some(code), None)]
    case Crashed => [OnSession(UnexpectedError, session), OnSession(AmbiguousResult, session)]
  }

  function SendVerdict(code: ErrorCode, notSent: bool): EventName {
    if notSent then NotSent else if code == CommandRejected then CommandWasRejected else AmbiguousResult
  }

  /** The expectation each command builds, before its identity is captured. */
  predicate ArgsFit(command: Command, args: Expectation) {
    match command
    case Play => args == PlaybackIn(None, Playing)
    case Pause => args == PlaybackIn(None, Paused)
    case Stop => args == Stopped(None)
    case Seek => args.PositionNear? && args.identity == None
    case LoadMedia => args.Loaded?
    case CloseApp => args.AppEnded?
    case SetVolume => args.VolumeNear?
    case SetMuted => args.MutedIs?
  }

  function Bind(args: Expectation, identity: Option<MediaIdentity>): Expectation {
    if args.HasIdentity() then args.(identity := identity) else args
  }

  function NewCmd(
    id: RequestId, process: nat, command: Command, order: Option<OrderId>,
    gated: bool, checks: bool, args: Expectation): Cmd
  {
    Cmd(id, process, command, order, gated, checks, args, Prepared, None, args, None, false, None, None,
        false, false, false, NoHold, [], Open, 0, [], [], 0, 0, 0, 0)
  }

  datatype Action =
    | Capture(status: DeviceStatus)
    | CaptureFails(code: ErrorCode)
    | PreReadEscapes
    | RefuseFixedVolume
    | Announce
    | EnterTransport
    | TransportReturns(answer: TransportOutcome)
    | BeginHold
    | WriteMarker
    | GateFails
    | SeeRelease(token: Token)
    | HoldTimesOut
    | BeginVerify
    | ReadStatus(outcome: ReadOutcome, late: bool)
    | BudgetSpent

  /** `_playback_target`: the captured session, or a refusal before anything is sent. */
  function AfterCapture(c: Cmd, status: DeviceStatus): Cmd {
    var session := status.Session();
    if status.connection != Connected || status.media.None? || session.None? then
      c.(phase := Finished, ending := BeforeSend(None, UnsupportedOperation))
    else
      var bound := c.(target := session, captured := true,
                      expectation := Bind(c.args, IdentityOf(status.media.value)));
      if c.command == Seek && status.media.value.supportsSeek == Some(false) then
        bound.(phase := Finished, ending := BeforeSend(session, UnsupportedOperation))
      else bound.(phase := Captured)
  }

  function AfterReturn(c: Cmd, outcome: TransportOutcome, now: nat): Cmd {
    if outcome.Accepted? then c.(phase := Responded, answered := true, returnedAt := now)
    else c.(phase := Finished, ending := AtSend(outcome))
  }

  function AfterHold(c: Cmd, hold: Hold, now: nat): Cmd {
    c.(phase := Verifying, hold := hold, verifyFrom := now)
  }

  /** The events of one answered read: a first change of session, then the read. */
  function ReadEvents(session: Option<nat>, changed: bool): seq<Emission> {
    (if changed then [OnSession(ConfirmationSessionChanged, session)] else []) + [OnSession(ConfirmationStatus, session)]
  }

  /** One answered read of `_verify`: what it records, what the attempt remembers, what it decides. */
  function AfterAnswer(c: Cmd, status: DeviceStatus, late: bool, now: nat): Cmd {
    var session := status.Session();
    var changed := c.target.Some? && session.Some? && session != c.target && !c.changeNoted;
    var attempt := AfterRead(c.expectation, c.seen, Answered(status), late);
    c.(phase := if attempt.decision.Continue? then Verifying else Finished,
       ending := if attempt.decision.Confirm? then ConfirmedOn(session)
                 else if attempt.decision.Continue? then c.ending else NotConfirmed(session, None),
       lastSession := session, lastError := None, changeNoted := c.changeNoted || changed,
       observed := c.observed + ReadEvents(session, changed), seen := attempt.seen, readAt := now)
  }

  function AfterStatusRead(c: Cmd, outcome: ReadOutcome, late: bool, now: nat): Cmd {
    match outcome
    case ReadFailed(code) =>
      c.(lastError := Some(code), observed := c.observed + [Emission(ConfirmationReadFailed, None, Some(code), None)])
    case ReadEscaped => c.(phase := Escaped, ending := ReadEscapes)
    case Answered(status) => AfterAnswer(c, status, late, now)
  }

  /** The command after one action, or None when it cannot take it now. `now` is history only. */
  function CmdStep(c: Cmd, a: Action, now: nat): Option<Cmd> {
    if !c.Idle() then None
    else
      match a
      case Capture(status) =>
        if c.phase == Prepared && TargetsSession(c.command) then Some(AfterCapture(c, status)) else None
      case CaptureFails(code) =>
        if c.phase == Prepared && TargetsSession(c.command)
        then Some(c.(phase := Finished, ending := BeforeSend(None, code))) else None
      case PreReadEscapes =>
        if c.phase == Prepared && (TargetsSession(c.command) || c.command == SetVolume)
        then Some(c.(phase := Escaped)) else None
      case RefuseFixedVolume =>
        if c.phase == Prepared && c.command == SetVolume
        then Some(c.(phase := Finished, ending := BeforeSend(None, UnsupportedOperation))) else None
      case Announce =>
        if c.phase == Captured || (c.phase == Prepared && !TargetsSession(c.command))
        then Some(c.(phase := Announced, sent := true)) else None
      case EnterTransport =>
        if c.phase == Announced then Some(c.(phase := InTransport, enteredAt := now)) else None
      case TransportReturns(answer) =>
        if c.phase == InTransport then Some(AfterReturn(c, answer, now)) else None
      case BeginHold =>
        if c.phase == Responded && TargetsSession(c.command) && c.gated && c.checks
        then Some(c.(phase := Holding, hold := OnHold)) else None
      case WriteMarker =>
        if c.phase == Holding then Some(c.(phase := Held)) else None
      case GateFails =>
        if c.phase.Holding? || c.phase.Held? then Some(AfterHold(c, HoldBroken, now)) else None
      case SeeRelease(token) =>
        if c.phase == Held then Some(AfterHold(c, HoldEnded(token), now)) else None
      case HoldTimesOut =>
        if c.phase == Held then Some(AfterHold(c, HoldExpired, now)) else None
      case BeginVerify =>
        if c.phase == Responded && !(TargetsSession(c.command) && c.gated && c.checks) then
          if c.checks then Some(c.(phase := Verifying, verifyFrom := now))
          else Some(c.(phase := Finished, ending := Unchecked))
        else None
      case ReadStatus(outcome, late) =>
        if c.phase == Verifying then Some(AfterStatusRead(c, outcome, late, now)) else None
      case BudgetSpent =>
        if c.phase == Verifying
        then Some(c.(phase := Finished, ending := NotConfirmed(c.lastSession, c.lastError))) else None
  }

  // ---------------------------------------------------------------- one observer

  datatype WatchPhase = Waiting | Found | Watching | Releasing | Done

  /** What the observer's first read showed of the hold it found. */
  datatype Sight = Unseen | SawCaptured | SawOther(session: Option<nat>)

  /** How the observer's run ended. */
  datatype Proof = NoProof | SawChange | GaveUp | SentRelease(token: Token)

  /** One run of the observer process, with the failed reads before and after its first sight. */
  datatype Watch = Watch(
    wanted: Option<RequestId>, phase: WatchPhase,
    request: RequestId, session: nat, changed: nat,
    early: nat, sight: Sight, late: nat, proof: Proof,
    recorded: nat, log: seq<TraceEvent>, file: seq<TraceEvent>,
    foundAt: nat, seenAt: nat, changedAt: nat)
  {
    function SightEvents(): seq<Emission> {
      match sight
      case Unseen => []
      case SawCaptured => [OnSession(ObserverHoldSeen, Some(session))]
      case SawOther(other) => [OnSession(ObserverHoldSeen, other), OnSession(ObserverAlreadyChanged, other)]
    }

    function ProofEvents(): seq<Emission> {
      match proof
      case NoProof => []
      case SawChange => [OnSession(IndependentSessionChange, Some(changed))]
      case GaveUp => [Plain(ObserverTimeout)]
      case SentRelease(token) =>
        [OnSession(IndependentSessionChange, Some(changed)), Emission(ObserverReleaseSent, None, None, Some(token))]
    }

    function Script(): seq<Emission> {
      FailedReads(early) + SightEvents() + FailedReads(late) + ProofEvents()
    }

    predicate Idle() { recorded == |Script()| }

    function Subject(): CommandTrace.Subject { CommandTrace.Subject(request, None, None) }
  }

  function FailedReads(n: nat): seq<Emission> {
    seq(n, _ => Plain(EventName.ObserverReadFailed))
  }

  function NewWatch(wanted: Option<RequestId>): Watch {
    Watch(wanted, Waiting, 0, 0, 0, 0, Unseen, 0, NoProof, 0, [], [], 0, 0, 0)
  }

  /** The observer reads the TV: first to see the captured session, then until another is reported. */
  function AfterObserverRead(o: Watch, session: Option<nat>, now: nat): Watch {
    if o.phase == Found then
      if session != Some(o.session) then o.(phase := Done, sight := SawOther(session))
      else o.(phase := Watching, sight := SawCaptured, seenAt := now)
    else if session.Some? && session.value != o.session then
      o.(phase := Releasing, changed := session.value, changedAt := now, proof := SawChange)
    else o
  }

  function AfterFailedRead(o: Watch): Watch {
    if o.phase == Found then o.(early := o.early + 1) else o.(late := o.late + 1)
  }

  // ---------------------------------------------------------------- the world

  datatype Process = Process(role: Role, recorder: RecorderState)

  datatype World = World(
    tv: DeviceStatus,
    processes: map<nat, Process>,
    commands: map<RequestId, Cmd>,
    watches: map<nat, Watch>,
    held: map<RequestId, nat>,        // <request>.held markers: the captured session
    releases: map<RequestId, Token>,  // <request>.release files
    issued: map<Token, nat>,          // every token ever drawn, and by which observer
    timeline: seq<Happening>)

  function NewWorld(tv: DeviceStatus): World {
    World(tv, map[], map[], map[], map[], map[], map[], [])
  }

  datatype Step =
    | TvChanges(status: DeviceStatus)
    | StartRemote(process: nat, role: Role)
    | StartObserver(process: nat, wanted: Option<RequestId>)
    | Prepare(requestId: RequestId, process: nat, command: Command, order: Option<OrderId>,
              gated: bool, checks: bool, args: Expectation)
    | Act(requestId: RequestId, action: Action)
    | RecordCommand(requestId: RequestId, wroteMarker: bool, wroteEvent: bool)
    | FindHold(observer: nat, requestId: RequestId)
    | ObserverReads(observer: nat)
    | ObserverReadFails(observer: nat)
    | ObserverTimesOut(observer: nat)
    | Release(observer: nat, token: Token)
    | RecordWatch(observer: nat, wroteMarker: bool, wroteEvent: bool)

  /** What an action needs of its surroundings: reads answer what the TV reports, a release is seen
      only when its file is there. */
  predicate Agrees(w: World, requestId: RequestId, a: Action) {
    match a
    case Capture(status) => status == w.tv
    case RefuseFixedVolume => w.tv.connection == Connected && w.tv.receiver.Some? && w.tv.receiver.value.fixedVolume
    case SeeRelease(token) => requestId in w.releases && w.releases[requestId] == token
    case ReadStatus(outcome, _) => outcome.Answered? ==> outcome.status == w.tv
    case _ => true
  }

  function Witnessed(c: Cmd, a: Action): seq<Happening> {
    match a
    case EnterTransport => [TransportEntered(c.id, c.target)]
    case TransportReturns(answer) => if answer.Accepted? then [TransportReturned(c.id)] else []
    case SeeRelease(_) => [HoldReleased(c.id)]
    case ReadStatus(outcome, _) => if outcome.Answered? then [ConfirmationRead(c.id, outcome.status.Session())] else []
    case _ => []
  }

  /** The marker a hold leaves, and the files it removes when it ends. */
  function HeldAfter(w: World, c: Cmd, a: Action): map<RequestId, nat> {
    if a.WriteMarker? && c.target.Some? then w.held[c.id := c.target.value]
    else if a.GateFails? || a.SeeRelease? || a.HoldTimesOut? then w.held - {c.id}
    else w.held
  }

  function ReleasesAfter(w: World, c: Cmd, a: Action): map<RequestId, Token> {
    if a.GateFails? || a.SeeRelease? || a.HoldTimesOut? then w.releases - {c.id} else w.releases
  }

  function DoAct(w: World, requestId: RequestId, a: Action): World {
    if requestId !in w.commands || !Agrees(w, requestId, a) then w
    else
      var c := w.commands[requestId];
      match CmdStep(c, a, |w.timeline|)
      case None => w
      case Some(next) =>
        w.(commands := w.commands[requestId := next], held := HeldAfter(w, c, a),
           releases := ReleasesAfter(w, c, a), timeline := w.timeline + Witnessed(c, a))
  }

  function DoRecord(w: World, requestId: RequestId, wroteMarker: bool, wroteEvent: bool): World {
    if requestId !in w.commands || w.commands[requestId].Idle() || w.commands[requestId].process !in w.processes
       || w.commands[requestId].recorded > |w.commands[requestId].Script()| then w
    else
      var c := w.commands[requestId];
      var p := w.processes[c.process];
      var call := RecordCall(p.recorder, p.role, c.Subject(), c.Script()[c.recorded], wroteMarker, wroteEvent);
      w.(processes := w.processes[c.process := p.(recorder := call.state)],
         commands := w.commands[requestId :=
           c.(recorded := c.recorded + 1, log := c.log + call.stamped, file := c.file + call.written)])
  }

  function DoRecordWatch(w: World, observer: nat, wroteMarker: bool, wroteEvent: bool): World {
    if observer !in w.watches || w.watches[observer].recorded >= |w.watches[observer].Script()|
       || observer !in w.processes then w
    else
      var o := w.watches[observer];
      var p := w.processes[observer];
      var call := RecordCall(p.recorder, p.role, o.Subject(), o.Script()[o.recorded], wroteMarker, wroteEvent);
      w.(processes := w.processes[observer := p.(recorder := call.state)],
         watches := w.watches[observer :=
           o.(recorded := o.recorded + 1, log := o.log + call.stamped, file := o.file + call.written)])
  }

  /** The hold an observer takes: the one it was told to watch, or else the only one there is. */
  predicate CanFind(w: World, o: Watch, requestId: RequestId) {
    o.phase == Waiting && requestId in w.held
    && (if o.wanted.Some? then o.wanted.value == requestId else w.held.Keys == {requestId})
  }

  function DoWatch(w: World, s: Step): World
    requires s.FindHold? || s.ObserverReads? || s.ObserverReadFails? || s.ObserverTimesOut? || s.Release?
  {
    if s.observer !in w.watches || !w.watches[s.observer].Idle() then w
    else
      var o := w.watches[s.observer];
      var now := |w.timeline|;
      match s
      case FindHold(observer, requestId) =>
        if !CanFind(w, o, requestId) then w
        else w.(watches := w.watches[observer := o.(phase := Found, request := requestId, session := w.held[requestId], foundAt := now)],
                timeline := w.timeline + [HoldFound(observer)])
      case ObserverReads(observer) =>
        if !o.phase.Found? && !o.phase.Watching? then w
        else w.(watches := w.watches[observer := AfterObserverRead(o, w.tv.Session(), now)],
                timeline := w.timeline + [ReportedToObserver(observer, w.tv.Session())])
      case ObserverReadFails(observer) =>
        if !o.phase.Found? && !o.phase.Watching? then w
        else w.(watches := w.watches[observer := AfterFailedRead(o)])
      case ObserverTimesOut(observer) =>
        if o.phase == Waiting then w.(watches := w.watches[observer := o.(phase := Done)])
        else if !o.phase.Found? && !o.phase.Watching? then w
        else w.(watches := w.watches[observer := o.(phase := Done, proof := GaveUp)])
      case Release(observer, token) =>
        if o.phase != Releasing || token in w.issued then w
        else w.(watches := w.watches[observer := o.(phase := Done, proof := SentRelease(token))],
                releases := w.releases[o.request := token], issued := w.issued[token := observer])
  }

  function Do(w: World, s: Step): World {
    match s
    case TvChanges(status) => if status.Consistent() then w.(tv := status) else w
    case StartRemote(process, role) =>
      if process in w.processes || !Remote(role) then w
      else w.(processes := w.processes[process := Process(role, NEW_RECORDER)])
    case StartObserver(process, wanted) =>
      if process in w.processes then w
      else w.(processes := w.processes[process := Process(ObserverRole, NEW_RECORDER)],
              watches := w.watches[process := NewWatch(wanted)])
    case Prepare(requestId, process, command, order, gated, checks, args) =>
      if requestId in w.commands || process !in w.processes || !Remote(w.processes[process].role)
         || !ArgsFit(command, args) then w
      else w.(commands := w.commands[requestId := NewCmd(requestId, process, command, order, gated, checks, args)])
    case Act(requestId, action) => DoAct(w, requestId, action)
    case RecordCommand(requestId, wroteMarker, wroteEvent) => DoRecord(w, requestId, wroteMarker, wroteEvent)
    case RecordWatch(observer, wroteMarker, wroteEvent) => DoRecordWatch(w, observer, wroteMarker, wroteEvent)
    case _ => DoWatch(w, s)
  }

  /** The world after a run: any sequence of steps, from a TV reporting anything consistent. */
  function Run(tv: DeviceStatus, steps: seq<Step>): World {
    if steps == [] then NewWorld(tv) else Do(Run(tv, steps[..|steps| - 1]), steps[|steps| - 1])
  }
}
