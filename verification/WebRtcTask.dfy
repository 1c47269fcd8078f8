/** What the task that supervises one WebRTC session does, as a function of a script: what every awaited
    call answers and how long it takes. When the script runs out, the task was stopped at that await. */
module WebRtcTask {
  const NEGOTIATION_TIMEOUT := 30.0
  const MAX_RECONNECT_ATTEMPTS := 2
  const RECONNECT_DELAY := 1.0
  const RECONNECT_SETUP_TIMEOUT := 15.0
  const REMOTE_TIMEOUT := 20.0
  const MAXIMUM_SESSION := 3600.0

  datatype EngineError = TransportError | NegotiationTimeout | LocalError

  /** Only a lost or never-established link is worth another handoff. */
  predicate Reconnectable(error: EngineError) { error.TransportError? || error.NegotiationTimeout? }

  /** What one awaited call answers, after how long; a poll of the media may answer that it still runs. */
  datatype Event = Event(elapsed: real, ok: bool, error: EngineError, pending: bool)

  datatype Awaited = Stopped | TimedOut | Came(event: Event)

  /** What the task does that others can see. A wait is noted when it begins. */
  datatype Act =
    | Waits(at: real, limit: real)      // a setup phase, with the time it is given
    | Accepts(at: real, limit: real)    // the signaling server of one attempt is used up
    | Prepares(at: real)                // the engine, without a limit
    | HandsOver(at: real, limit: real, clampedAt: real)  // its time was computed at `clampedAt`
    | Negotiates(at: real, limit: real)
    | Reconnects
    | Opens | Closes | StopsEngine      // a transport, and how it is given back
    | StartsMedia
    | AsksActivation | Activated
    | Releases

  datatype Kind = OfReconnect | OfAccept | OfOpen | OfGivenBack | OfActivation | OfRelease

  predicate Is(a: Act, kind: Kind) {
    match kind
    case OfReconnect => a.Reconnects?
    case OfAccept => a.Accepts?
    case OfOpen => a.Opens?
    case OfGivenBack => a.Closes? || a.StopsEngine?
    case OfActivation => a.Activated?
    case OfRelease => a.Releases?
  }

  function Count(trace: seq<Act>, kind: Kind): nat {
    if trace == [] then 0
    else Count(trace[..|trace| - 1], kind) + if Is(trace[|trace| - 1], kind) then 1 else 0
  }

  lemma CountAppend(trace: seq<Act>, a: Act, kind: Kind)
    ensures Count(trace + [a], kind) == Count(trace, kind) + if Is(a, kind) then 1 else 0
  {
    assert (trace + [a])[..|trace|] == trace;
  }

  /** The time each wait is given: a setup phase and an accept end by the session's deadline; the
      handoff's limit was clamped to it when more than a negotiation was left; a negotiation's is not. */
  predicate Bounded(a: Act, deadline: real) {
    && (a.Waits? || a.Accepts? ==> 0.0 < a.limit && a.at + a.limit <= deadline)
    && (a.HandsOver? ==> a.limit == REMOTE_TIMEOUT && a.clampedAt <= a.at && NEGOTIATION_TIMEOUT < deadline - a.clampedAt)
    && (a.Negotiates? ==> a.limit == NEGOTIATION_TIMEOUT)
  }

  predicate Timed(trace: seq<Act>, deadline: real) { forall a :: a in trace ==> Bounded(a, deadline) }

  /** The wait is over by the session's deadline, whatever is awaited. */
  predicate InTime(a: Act, deadline: real) {
    a.Waits? || a.Accepts? || a.HandsOver? || a.Negotiates? ==> a.at + a.limit <= deadline
  }

  datatype Setup = SetUp | SetupFailed | SetupStopped

  /** The task ended by itself, or was stopped while it waited. */
  datatype End = Ended | WasStopped

  datatype Watched = Lost(error: EngineError) | Finished(end: End) | LeftWatching

  /** What is given to the task, and where it stands. */
  datatype Surroundings = Surroundings(script: seq<Event>, deadline: real)
  datatype State = State(next: nat, now: real, reconnecting: bool, server: bool, trace: seq<Act>)
  {
    function With(a: Act): State { this.(trace := trace + [a]) }
  }

  datatype After<+T> = After(s: State, r: T)

  function Started(start: real): State { State(0, start, false, true, []) }

  // ---------------------------------------------------------------- single waits

  function AwaitFrom(g: Surroundings, s: State, bounded: bool, limit: real): (n: After<Awaited>)
    requires s.next <= |g.script|
    ensures s.next <= n.s.next <= |g.script| && s.trace <= n.s.trace && (n.r.Stopped? || s.next < n.s.next) && n.s.trace == s.trace
  {
    if s.next == |g.script| then After(s, Stopped)
    else
      var e := g.script[s.next];
      if bounded && e.elapsed > limit then After(s.(next := s.next + 1, now := s.now + limit), TimedOut)
      else After(s.(next := s.next + 1, now := s.now + e.elapsed), Came(e))
  }

  function SleepFrom(g: Surroundings, s: State, time: real): (n: After<bool>)
    requires s.next <= |g.script|
    ensures s.next <= n.s.next <= |g.script| && s.trace <= n.s.trace
  {
    if s.next == |g.script| then After(s, true) else After(s.(next := s.next + 1, now := s.now + time), false)
  }

  /** `reconnect_timeout`: the phase's time, or what is left of the session, or nothing. */
  function LimitOf(g: Surroundings, s: State, phase: real): real {
    if g.deadline - s.now < phase then g.deadline - s.now else phase
  }

  predicate Expired(g: Surroundings, s: State) { g.deadline - s.now <= 0.0 }

  /** A setup phase: clamped, then awaited; without time left it fails as a timeout does. */
  function PhaseFrom(g: Surroundings, s: State, phase: real): (n: After<Awaited>)
    requires s.next <= |g.script|
    ensures s.next <= n.s.next <= |g.script| && s.trace <= n.s.trace
  {
    if Expired(g, s) then After(s, TimedOut)
    else AwaitFrom(g, s.With(Waits(s.now, LimitOf(g, s, phase))), true, LimitOf(g, s, phase))
  }

  predicate Good(r: Awaited) { r.Came? && r.event.ok }

  function StopEngineFrom(g: Surroundings, s: State): (n: After<bool>)
    requires s.next <= |g.script|
    ensures s.next <= n.s.next <= |g.script| && s.trace <= n.s.trace
  {
    var n := AwaitFrom(g, s.With(StopsEngine), false, 0.0);
    After(n.s, n.r.Stopped?)
  }

  function CloseFrom(g: Surroundings, s: State): (n: After<bool>)
    requires s.next <= |g.script|
    ensures s.next <= n.s.next <= |g.script| && s.trace <= n.s.trace
  {
    var n := AwaitFrom(g, s.With(Closes), false, 0.0);
    After(n.s, n.r.Stopped?)
  }

  function ReleaseFrom(g: Surroundings, s: State): (n: After<bool>)
    requires s.next <= |g.script|
    ensures s.next <= n.s.next <= |g.script| && s.trace <= n.s.trace
  {
    var n := AwaitFrom(g, s.With(Releases), false, 0.0);
    if n.r.Stopped? then After(n.s, true) else After(n.s.(reconnecting := false), false)
  }

  // ---------------------------------------------------------------- setting up again

  function FailedSetup(r: Awaited): Setup { if r.Stopped? then SetupStopped else SetupFailed }

  /** The handoff's time, with the moment it was computed at. */
  datatype Handoff = Handoff(setup: Setup, limit: real, clampedAt: real)

  function NoHandoff(r: Awaited): Handoff { Handoff(FailedSetup(r), 0.0, 0.0) }

  /** The offer and the signaling server of a replacement, then the engine prepared for it: the time
      of the handoff is computed before that. */
  function SetUpFrom(g: Surroundings, s: State): (n: After<Handoff>)
    requires s.next <= |g.script|
    ensures s.next <= n.s.next <= |g.script| && s.trace <= n.s.trace && (n.r.setup.SetUp? ==> s.next < n.s.next)
  {
    var offered := PhaseFrom(g, s, RECONNECT_SETUP_TIMEOUT);
    if !Good(offered.r) then After(offered.s, NoHandoff(offered.r))
    else
      var bound := PhaseFrom(g, offered.s, RECONNECT_SETUP_TIMEOUT);
      if !Good(bound.r) then After(bound.s, NoHandoff(bound.r))
      else if Expired(g, bound.s) || g.deadline - bound.s.now <= NEGOTIATION_TIMEOUT then After(bound.s, NoHandoff(TimedOut))
      else
        var prepared := AwaitFrom(g, bound.s.With(Prepares(bound.s.now)), false, 0.0);
        if !Good(prepared.r) then After(prepared.s, NoHandoff(prepared.r))
        else After(prepared.s.(reconnecting := false), Handoff(SetUp, LimitOf(g, bound.s, REMOTE_TIMEOUT), bound.s.now))
  }

  function HandOverFrom(g: Surroundings, s: State, limit: real, clampedAt: real): (n: After<Setup>)
    requires s.next <= |g.script|
    ensures s.next <= n.s.next <= |g.script| && s.trace <= n.s.trace
  {
    var handoff := AwaitFrom(g, s.With(HandsOver(s.now, limit, clampedAt)), true, limit);
    if handoff.r.Stopped? then After(handoff.s, SetupStopped)
    else if Good(handoff.r) then After(handoff.s, SetUp)
    else
      var stopped := StopEngineFrom(g, handoff.s);
      After(stopped.s, if stopped.r then SetupStopped else SetupFailed)
  }

  /** The pause before a replacement is set up, and whether the session leaves time for one. */
  function DelayFrom(g: Surroundings, s: State): (n: After<Setup>)
    requires s.next <= |g.script|
    ensures s.next <= n.s.next <= |g.script| && s.trace <= n.s.trace
  {
    if Expired(g, s) then After(s, SetupFailed)
    else
      var limit := LimitOf(g, s, RECONNECT_DELAY);
      var slept := SleepFrom(g, s.With(Waits(s.now, limit)), limit);
      if slept.r then After(slept.s, SetupStopped)
      else if limit < RECONNECT_DELAY || g.deadline - slept.s.now <= NEGOTIATION_TIMEOUT then After(slept.s, SetupFailed)
      else After(slept.s, SetUp)
  }

  function CreateFrom(g: Surroundings, s: State): (n: After<Setup>)
    requires s.next <= |g.script|
    ensures s.next <= n.s.next <= |g.script| && s.trace <= n.s.trace && (n.r.SetUp? ==> s.next < n.s.next)
  {
    var delayed := DelayFrom(g, s);
    if !delayed.r.SetUp? then delayed
    else
      var made := PhaseFrom(g, delayed.s, RECONNECT_SETUP_TIMEOUT);
      if !Good(made.r) then After(made.s, FailedSetup(made.r))
      else
        var setup := SetUpFrom(g, made.s.With(Opens));
        match setup.r.setup
        case SetUp => HandOverFrom(g, setup.s, setup.r.limit, setup.r.clampedAt)
        case SetupStopped => After(setup.s, SetupStopped)
        case SetupFailed =>
          var closed := CloseFrom(g, setup.s);
          After(closed.s, if closed.r then SetupStopped else SetupFailed)
  }

  // ---------------------------------------------------------------- one attempt

  function FailFrom(g: Surroundings, s: State, stopEngine: bool): (n: After<End>)
    requires s.next <= |g.script|
    ensures s.next <= n.s.next <= |g.script| && s.trace <= n.s.trace
  {
    var stopped := if stopEngine then StopEngineFrom(g, s) else After(s, false);
    if stopped.r then After(stopped.s, WasStopped)
    else
      var released := ReleaseFrom(g, stopped.s);
      After(released.s, if released.r then WasStopped else Ended)
  }

  /** Whether the task goes on with another attempt, how many it used, and else how it ended. */
  datatype Verdict = Verdict(going: bool, used: nat, end: End)

  function RetryFrom(g: Surroundings, s: State, error: EngineError, used: nat): (n: After<Verdict>)
    requires s.next <= |g.script|
    ensures s.next <= n.s.next <= |g.script| && s.trace <= n.s.trace && (n.r.going ==> s.next < n.s.next)
  {
    var stopped := StopEngineFrom(g, s);
    if stopped.r then After(stopped.s, Verdict(false, used, WasStopped))
    else if !Reconnectable(error) || used >= MAX_RECONNECT_ATTEMPTS then
      var failed := FailFrom(g, stopped.s, false);
      After(failed.s, Verdict(false, used, failed.r))
    else
      var setup := CreateFrom(g, stopped.s.(reconnecting := true).With(Reconnects));
      match setup.r
      case SetupStopped => After(setup.s, Verdict(false, used + 1, WasStopped))
      case SetupFailed =>
        var failed := FailFrom(g, setup.s, false);
        After(failed.s, Verdict(false, used + 1, failed.r))
      case SetUp => After(setup.s.(server := true), Verdict(true, used + 1, WasStopped))
  }

  datatype Reached = Reached(yes: bool, end: End)

  /** The link: the negotiation is given its whole time. */
  function ConnectFrom(g: Surroundings, s: State): (n: After<Reached>)
    requires s.next <= |g.script|
    ensures s.next <= n.s.next <= |g.script| && s.With(Negotiates(s.now, NEGOTIATION_TIMEOUT)).trace <= n.s.trace
  {
    var negotiated := AwaitFrom(g, s.With(Negotiates(s.now, NEGOTIATION_TIMEOUT)), true, NEGOTIATION_TIMEOUT);
    if negotiated.r.Stopped? then After(negotiated.s, Reached(false, WasStopped))
    else if !Good(negotiated.r) then
      var failed := FailFrom(g, negotiated.s, true);
      After(failed.s, Reached(false, failed.r))
    else StartFrom(g, negotiated.s)
  }

  function StartFrom(g: Surroundings, s: State): (n: After<Reached>)
    requires s.next <= |g.script|
    ensures s.next <= n.s.next <= |g.script| && s.trace <= n.s.trace
  {
    var started := AwaitFrom(g, s.With(StartsMedia), false, 0.0);
    if started.r.Stopped? then After(started.s, Reached(false, WasStopped))
    else if started.r.event.ok then After(started.s, Reached(true, WasStopped))
    else
      var failed := FailFrom(g, started.s, true);
      After(failed.s, Reached(false, failed.r))
  }

  function ActivateFrom(g: Surroundings, s: State): (n: After<Reached>)
    requires s.next <= |g.script|
    ensures s.next <= n.s.next <= |g.script| && s.trace <= n.s.trace
  {
    var answer := AwaitFrom(g, s.With(AsksActivation), false, 0.0);
    if answer.r.Stopped? then After(answer.s, Reached(false, WasStopped))
    else if answer.r.event.ok then After(answer.s.With(Activated), Reached(true, WasStopped))
    else
      var failed := FailFrom(g, answer.s, true);
      After(failed.s, Reached(false, failed.r))
  }

  function FinishFrom(g: Surroundings, s: State): (n: After<Watched>)
    requires s.next <= |g.script|
    ensures s.next <= n.s.next <= |g.script| && s.trace <= n.s.trace
  {
    var closed := CloseFrom(g, s);
    if closed.r then After(closed.s, LeftWatching)
    else
      var released := AwaitFrom(g, closed.s.With(Releases), false, 0.0);
      After(released.s, Finished(if released.r.Stopped? then WasStopped else Ended))
  }

  function WatchFrom(g: Surroundings, s: State): (n: After<Watched>)
    requires s.next <= |g.script|
    ensures s.next <= n.s.next <= |g.script| && s.trace <= n.s.trace
    decreases |g.script| - s.next
  {
    var polled := AwaitFrom(g, s, false, 0.0);
    if polled.r.Stopped? then After(polled.s, LeftWatching)
    else if polled.r.event.pending then WatchFrom(g, polled.s)
    else if !polled.r.event.ok then After(polled.s, Lost(polled.r.event.error))
    else FinishFrom(g, polled.s)
  }

  datatype Tried = Tried(going: bool, activated: bool, used: nat, end: End)

  /** The media after a link: the capture is activated once, then watched. */
  function PlayFrom(g: Surroundings, s: State, used: nat, capture: bool): (n: After<Tried>)
    requires s.next <= |g.script|
    ensures s.next <= n.s.next <= |g.script| && s.trace <= n.s.trace && (n.r.going ==> s.next < n.s.next)
  {
    var activated := if capture then After(s, Reached(true, WasStopped)) else ActivateFrom(g, s);
    if !activated.r.yes then After(activated.s, Tried(false, false, used, activated.r.end))
    else
      var watched := WatchFrom(g, activated.s);
      match watched.r
      case Lost(error) =>
        var retry := RetryFrom(g, watched.s, error, used);
        After(retry.s, Tried(retry.r.going, true, retry.r.used, retry.r.end))
      case Finished(end) => After(watched.s, Tried(false, true, used, end))
      case LeftWatching => After(watched.s, Tried(false, true, used, WasStopped))
  }

  /** The link of an accepted receiver, then its media. */
  function LinkFrom(g: Surroundings, s: State, used: nat, capture: bool): (n: After<Tried>)
    requires s.next <= |g.script|
    ensures s.next <= n.s.next <= |g.script| && s.trace <= n.s.trace && (n.r.going ==> s.next < n.s.next)
  {
    var connected := ConnectFrom(g, s);
    if connected.r.yes then PlayFrom(g, connected.s, used, capture)
    else After(connected.s, Tried(false, capture, used, connected.r.end))
  }

  /** The receiver's answer; the attempt's signaling server is used up by waiting for it. */
  function AcceptFrom(g: Surroundings, s: State): (n: After<Awaited>)
    requires s.next <= |g.script|
    ensures s.next <= n.s.next <= |g.script| && s.trace <= n.s.trace
  {
    var limit := LimitOf(g, s, NEGOTIATION_TIMEOUT);
    AwaitFrom(g, s.(server := false).With(Accepts(s.now, limit)), true, limit)
  }

  function AttemptFrom(g: Surroundings, s: State, used: nat, capture: bool): (n: After<Tried>)
    requires s.next <= |g.script|
    ensures s.next <= n.s.next <= |g.script| && s.trace <= n.s.trace && (n.r.going ==> s.next < n.s.next)
  {
    if Expired(g, s) then
      var failed := FailFrom(g, s, true);
      After(failed.s, Tried(false, capture, used, failed.r))
    else
      var answer := AcceptFrom(g, s);
      if answer.r.Stopped? then After(answer.s, Tried(false, capture, used, WasStopped))
      else if !Good(answer.r) then
        var retry := RetryFrom(g, answer.s, if answer.r.TimedOut? then NegotiationTimeout else answer.r.event.error, used);
        After(retry.s, Tried(retry.r.going, capture, retry.r.used, retry.r.end))
      else LinkFrom(g, answer.s, used, capture)
  }

  /** The whole task. */
  function SuperviseFrom(g: Surroundings, s: State, used: nat, capture: bool): (n: After<End>)
    requires s.next <= |g.script|
    ensures s.next <= n.s.next <= |g.script| && s.trace <= n.s.trace
    decreases |g.script| - s.next
  {
    var tried := AttemptFrom(g, s, used, capture);
    if tried.r.going then SuperviseFrom(g, tried.s, tried.r.used, tried.r.activated) else After(tried.s, tried.r.end)
  }

  // ---------------------------------------------------------------- a negotiation that outlasts the session

  predicate Timely(g: Surroundings) { forall e :: e in g.script ==> 0.0 <= e.elapsed }

  /** The attempt comes to a negotiation that is not over by the deadline, whatever is awaited: an
      attempt first waits for the receiver, and then negotiates if it was accepted. */
  predicate NegotiatesLate(g: Surroundings, s: State, used: nat, capture: bool)
    requires s.next <= |g.script|
  {
    var trace, n := AttemptFrom(g, s, used, capture).s.trace, |s.trace| + 1;
    n < |trace| && trace[n].Negotiates? && !InTime(trace[n], g.deadline)
  }

  // The second thing an attempt does.
  lemma SecondAct(g: Surroundings, s: State, used: nat, capture: bool)
    requires s.next <= |g.script| && !Expired(g, s)
    ensures var trace, n, answer := AttemptFrom(g, s, used, capture).s.trace, |s.trace| + 1, AcceptFrom(g, s);
            if Good(answer.r) then n < |trace| && trace[n] == Negotiates(answer.s.now, NEGOTIATION_TIMEOUT)
            else n < |trace| ==> trace[n] == StopsEngine
  {
    var answer := AcceptFrom(g, s);
    assert answer.s.trace == s.trace + [Accepts(s.now, LimitOf(g, s, NEGOTIATION_TIMEOUT))];
    if Good(answer.r) {
      var connected := ConnectFrom(g, answer.s);
      assert answer.s.With(Negotiates(answer.s.now, NEGOTIATION_TIMEOUT)).trace <= connected.s.trace;
      assert connected.s.trace <= AttemptFrom(g, s, used, capture).s.trace;
    }
    hide LimitOf, FailFrom, CreateFrom, PlayFrom, ConnectFrom, ReleaseFrom;
  }

  /** Known when an attempt begins: with time left, its negotiation can outlast the deadline if and only
      if less than a minute is left. */
  lemma NegotiatesLateExactlyWhen(deadline: real, s: State, used: nat, capture: bool)
    requires s.now < deadline
    ensures (exists g: Surroundings ::
               g.deadline == deadline && s.next <= |g.script| && Timely(g) && NegotiatesLate(g, s, used, capture))
            <==> deadline - s.now < 2.0 * NEGOTIATION_TIMEOUT
  {
    if deadline - s.now < 2.0 * NEGOTIATION_TIMEOUT {
      LateScript(deadline, s, used, capture);
    } else {
      forall g: Surroundings | g.deadline == deadline && s.next <= |g.script| && Timely(g)
        ensures !NegotiatesLate(g, s, used, capture)
      {
        SecondAct(g, s, used, capture);
        hide AttemptFrom;
      }
    }
  }

  // The receiver answers as late as it may.
  lemma LateScript(deadline: real, s: State, used: nat, capture: bool)
    requires 0.0 < deadline - s.now < 2.0 * NEGOTIATION_TIMEOUT
    ensures exists g: Surroundings ::
              g.deadline == deadline && s.next <= |g.script| && Timely(g) && NegotiatesLate(g, s, used, capture)
  {
    var last := if deadline - s.now < NEGOTIATION_TIMEOUT then deadline - s.now else NEGOTIATION_TIMEOUT;
    var g := Surroundings(seq(s.next, _ => Fine(0.0)) + [Fine(last)], deadline);
    assert g.script[s.next] == Fine(last);
    SecondAct(g, s, used, capture);
    hide AttemptFrom;
    assert Timely(g) && NegotiatesLate(g, s, used, capture);
  }

  function Fine(elapsed: real): Event { Event(elapsed, true, LocalError, false) }

  /** A session of an hour whose link is lost after 3560 seconds, set up again, and answered by the
      receiver 25 seconds before the deadline. */
  const LOST_LATE: seq<Event> := [
    Fine(5.0), Fine(5.0), Fine(0.0), Fine(0.0),                          // accept, negotiation, media, activation
    Event(3550.0, false, TransportError, false), Fine(0.0),              // the link is lost, the engine stopped
    Fine(1.0), Fine(1.0), Fine(1.0), Fine(1.0), Fine(0.0), Fine(2.0),    // delay, transport, offer, signaling, engine, handoff
    Fine(9.0), Fine(30.0), Fine(0.0)]                                    // accept, negotiation, media

  const FIRST_ATTEMPT: seq<Act> := [
    Accepts(0.0, 30.0), Negotiates(5.0, 30.0), StartsMedia, AsksActivation, Activated, StopsEngine, Reconnects,
    Waits(3560.0, 1.0), Waits(3561.0, 15.0), Opens, Waits(3562.0, 15.0), Waits(3563.0, 15.0),
    Prepares(3564.0), HandsOver(3564.0, 20.0, 3564.0)]

  const HOUR := Surroundings(LOST_LATE, MAXIMUM_SESSION)

  // The link is up, then lost.
  lemma LinkIsLost()
    ensures var up := ConnectFrom(HOUR, AcceptFrom(HOUR, Started(0.0)).s);
            && Good(AcceptFrom(HOUR, Started(0.0)).r)
            && up == After(State(3, 10.0, false, false, FIRST_ATTEMPT[..3]), Reached(true, WasStopped))
            && ActivateFrom(HOUR, up.s) == After(State(4, 10.0, false, false, FIRST_ATTEMPT[..5]), Reached(true, WasStopped))
            && WatchFrom(HOUR, ActivateFrom(HOUR, up.s).s)
                 == After(State(5, 3560.0, false, false, FIRST_ATTEMPT[..5]), Lost(TransportError))
  {
  }

  // A replacement is set up and handed over.
  lemma LinkIsReplaced(lost: State)
    requires lost == State(5, 3560.0, false, false, FIRST_ATTEMPT[..5])
    ensures RetryFrom(HOUR, lost, TransportError, 0)
              == After(State(12, 3566.0, false, true, FIRST_ATTEMPT), Verdict(true, 1, WasStopped))
  {
    var s1 := State(6, 3560.0, true, false, FIRST_ATTEMPT[..7]);
    assert StopEngineFrom(HOUR, lost).s.(reconnecting := true).With(Reconnects) == s1;
    var s2 := State(7, 3561.0, true, false, FIRST_ATTEMPT[..8]);
    assert DelayFrom(HOUR, s1) == After(s2, SetUp);
    var s3 := State(8, 3562.0, true, false, FIRST_ATTEMPT[..10]);
    assert PhaseFrom(HOUR, s2, RECONNECT_SETUP_TIMEOUT).s.With(Opens) == s3;
    var s4 := State(11, 3564.0, false, false, FIRST_ATTEMPT[..13]);
    assert SetUpFrom(HOUR, s3) == After(s4, Handoff(SetUp, 20.0, 3564.0)) by {
      hide HandOverFrom, CreateFrom, RetryFrom, DelayFrom, StopEngineFrom;
    }
    assert HandOverFrom(HOUR, s4, 20.0, 3564.0) == After(State(12, 3566.0, false, false, FIRST_ATTEMPT), SetUp);
    hide DelayFrom, SetUpFrom, HandOverFrom, StopEngineFrom, AwaitFrom;
  }

  lemma FirstAttempt()
    ensures AttemptFrom(HOUR, Started(0.0), 0, false)
              == After(State(12, 3566.0, false, true, FIRST_ATTEMPT), Tried(true, true, 1, WasStopped))
  {
    hide ConnectFrom, AcceptFrom, ActivateFrom, WatchFrom, RetryFrom;
    LinkIsLost();
    LinkIsReplaced(State(5, 3560.0, false, false, FIRST_ATTEMPT[..5]));
  }

  lemma SecondAttempt(s: State)
    requires s == State(12, 3566.0, false, true, FIRST_ATTEMPT)
    ensures var n := AttemptFrom(HOUR, s, 1, true);
            && n.s.trace == s.trace + [Accepts(3566.0, 30.0), Negotiates(3575.0, NEGOTIATION_TIMEOUT), StartsMedia]
            && n.s.now == 3605.0 && !n.r.going
  {
    var answer := AcceptFrom(HOUR, s);
    var connected := ConnectFrom(HOUR, answer.s);
    assert connected.r.yes && connected.s.next == 15;
    assert PlayFrom(HOUR, connected.s, 1, true) == After(connected.s, Tried(false, true, 1, WasStopped));
  }

  /** There is such a session: a negotiation begins 25 seconds before its deadline with 30 seconds, and
      the media starts 5 seconds after the deadline. */
  lemma NegotiationOverruns()
    ensures var n := SuperviseFrom(HOUR, Started(0.0), 0, false);
            && n.s.trace == FIRST_ATTEMPT + [Accepts(3566.0, 30.0), Negotiates(3575.0, NEGOTIATION_TIMEOUT), StartsMedia]
            && MAXIMUM_SESSION < 3575.0 + NEGOTIATION_TIMEOUT && n.s.now == 3605.0
  {
    FirstAttempt();
    SecondAttempt(State(12, 3566.0, false, true, FIRST_ATTEMPT));
    hide AttemptFrom;
  }
}
