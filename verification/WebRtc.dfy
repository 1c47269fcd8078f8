/** The task that supervises one WebRTC session, as the objects it is made of: negotiation, media, at
    most two reconnections, and the release of the capture it was leased. */
module WebRtc {
  import opened WebRtcTask

  class ReconnectBudget {
    var used: nat
    const maximum: nat

    constructor (maximum: nat)
      ensures this.maximum == maximum && used == 0
    {
      this.maximum, used := maximum, 0;
    }

    /** One more attempt, numbered from 1, or none left. */
    method Claim() returns (granted: bool, attempt: nat)
      modifies this
      ensures granted <==> old(used) < maximum
      ensures used == old(used) + if granted then 1 else 0
      ensures granted ==> attempt == used <= maximum
    {
      if used >= maximum {
        return false, 0;
      }
      used := used + 1;
      return true, used;
    }
  }

  /** The task's surroundings: the script, the clock, and the state the window reads. */
  class Session {
    const script: seq<Event>
    const deadline: real
    var next: nat
    var now: real
    var reconnecting: bool
    var server: bool  // the next attempt has a signaling server
    var trace: seq<Act>

    constructor (script: seq<Event>, start: real, deadline: real)
      requires forall e :: e in script ==> 0.0 <= e.elapsed
      ensures this.script == script && this.deadline == deadline && now == start && next == 0
      ensures Valid() && !reconnecting && server && trace == []
    {
      this.script, this.deadline := script, deadline;
      next, now, reconnecting, server, trace := 0, start, false, true, [];
    }

    predicate Valid()
      reads this
    {
      next <= |script| && Timed(trace, deadline) && forall e :: e in script ==> 0.0 <= e.elapsed
    }

    function Given(): Surroundings { Surroundings(script, deadline) }

    function Now(): State
      reads this
    {
      State(next, now, reconnecting, server, trace)
    }

    /** The capture was released once since `before`, as the last thing done, and nothing reconnects. */
    predicate EndedCleanly(before: seq<Act>)
      reads this
    {
      && !reconnecting && trace != [] && trace[|trace| - 1] == Releases
      && Count(trace, OfRelease) == Count(before, OfRelease) + 1
    }

    method Note(a: Act)
      requires Valid() && Bounded(a, deadline)
      modifies this`trace
      ensures Valid() && trace == old(trace) + [a]
      ensures forall kind :: Count(trace, kind) == Count(old(trace), kind) + if Is(a, kind) then 1 else 0
    {
      forall kind {
        CountAppend(trace, a, kind);
      }
      trace := trace + [a];
    }

    /** An awaited call, given `limit` seconds if any. */
    method Await(bounded: bool, limit: real) returns (r: Awaited)
      requires Valid() && 0.0 <= limit
      modifies this`next, this`now
      ensures Valid() && (r.Stopped? ==> next == old(next)) && (!r.Stopped? ==> next == old(next) + 1)
      ensures old(now) <= now && (bounded && !r.Stopped? ==> now <= old(now) + limit)
      ensures r.TimedOut? ==> bounded
      ensures After(Now(), r) == AwaitFrom(Given(), old(Now()), bounded, limit)
    {
      if next == |script| {
        return Stopped;
      }
      var e := script[next];
      next := next + 1;
      if bounded && e.elapsed > limit {
        now := now + limit;
        return TimedOut;
      }
      now := now + e.elapsed;
      return Came(e);
    }

    method Sleep(time: real) returns (stopped: bool)
      requires Valid() && 0.0 <= time
      modifies this`next, this`now
      ensures Valid() && old(next) <= next && (!stopped ==> now == old(now) + time)
      ensures After(Now(), stopped) == SleepFrom(Given(), old(Now()), time)
    {
      if next == |script| {
        return true;
      }
      next, now := next + 1, now + time;
      return false;
    }

    /** `reconnect_timeout`: the phase's time, clamped to what is left of the session. */
    method Remaining(phase: real) returns (expired: bool, limit: real)
      requires 0.0 < phase
      ensures expired == Expired(Given(), Now()) && (!expired ==> limit == LimitOf(Given(), Now(), phase))
      ensures !expired ==> 0.0 < limit <= phase && now + limit <= deadline
      ensures !expired ==> limit == phase || now + limit == deadline
    {
      if deadline - now <= 0.0 {
        return true, 0.0;
      }
      return false, if deadline - now < phase then deadline - now else phase;
    }

    /** A setup phase: clamped, then awaited. */
    method Phase(phase: real) returns (expired: bool, r: Awaited)
      requires Valid() && 0.0 < phase
      modifies this`next, this`now, this`trace
      ensures Valid() && old(next) <= next && After(Now(), r) == PhaseFrom(Given(), old(Now()), phase)
      ensures expired ==> r.TimedOut?
      ensures forall kind :: Count(trace, kind) == Count(old(trace), kind)
    {
      var limit;
      expired, limit := Remaining(phase);
      if expired {
        return true, TimedOut;
      }
      Note(Waits(now, limit));
      r := Await(true, limit);
      return false, r;
    }

    /** `stop_engine_after_failure`; a failed stop keeps the transport and the first failure. */
    method StopEngine() returns (stopped: bool)
      requires Valid()
      modifies this`next, this`now, this`trace
      ensures Valid() && After(Now(), stopped) == StopEngineFrom(Given(), old(Now()))
      ensures forall kind :: Count(trace, kind) == Count(old(trace), kind) + if kind.OfGivenBack? then 1 else 0
    {
      Note(StopsEngine);
      var r := Await(false, 0.0);
      return r.Stopped?;
    }

    method Close() returns (stopped: bool)
      requires Valid()
      modifies this`next, this`now, this`trace
      ensures Valid() && After(Now(), stopped) == CloseFrom(Given(), old(Now()))
      ensures forall kind :: Count(trace, kind) == Count(old(trace), kind) + if kind.OfGivenBack? then 1 else 0
    {
      Note(Closes);
      var r := Await(false, 0.0);
      return r.Stopped?;
    }

    /** `release_after_failure`: the capture is given back, and nothing reconnects any more. */
    method ReleaseAfterFailure() returns (stopped: bool)
      requires Valid()
      modifies this
      ensures Valid() && After(Now(), stopped) == ReleaseFrom(Given(), old(Now()))
      ensures trace == old(trace) + [Releases] && (!stopped ==> !reconnecting)
      ensures forall kind :: Count(trace, kind) == Count(old(trace), kind) + if kind.OfRelease? then 1 else 0
    {
      Note(Releases);
      var r := Await(false, 0.0);
      if r.Stopped? {
        return true;
      }
      reconnecting := false;
      return false;
    }

    /** The pause before a replacement is set up, and whether the session leaves time for one. */
    method Delay() returns (r: Setup)
      requires Valid()
      modifies this`next, this`now, this`trace
      ensures Valid() && After(Now(), r) == DelayFrom(Given(), old(Now()))
      ensures forall kind :: Count(trace, kind) == Count(old(trace), kind)
    {
      var expired, limit := Remaining(RECONNECT_DELAY);
      if expired {
        return SetupFailed;
      }
      Note(Waits(now, limit));
      var stopped := Sleep(limit);
      if stopped {
        return SetupStopped;
      }
      if limit < RECONNECT_DELAY || deadline - now <= NEGOTIATION_TIMEOUT {
        return SetupFailed;
      }
      return SetUp;
    }

    /** `create_reconnect_attempt`: a new transport, offer and signaling server, handed to the TV.
        A transport it opened and does not hand over is closed or stopped before it fails. */
    method CreateReconnectAttempt() returns (r: Setup)
      requires Valid()
      modifies this
      ensures Valid() && After(Now(), r) == CreateFrom(Given(), old(Now()))
      ensures r.SetUp? ==> next > old(next) && !reconnecting
      ensures Count(trace, OfReconnect) == Count(old(trace), OfReconnect)
      ensures Count(trace, OfAccept) == Count(old(trace), OfAccept)
      ensures Count(trace, OfActivation) == Count(old(trace), OfActivation)
      ensures Count(trace, OfRelease) == Count(old(trace), OfRelease)
      ensures Count(trace, OfOpen) <= Count(old(trace), OfOpen) + 1
      ensures r.SetUp? ==>
                && Count(trace, OfOpen) == Count(old(trace), OfOpen) + 1
                && Count(trace, OfGivenBack) == Count(old(trace), OfGivenBack)
      ensures r.SetupFailed? ==>
                Count(trace, OfOpen) - Count(old(trace), OfOpen) == Count(trace, OfGivenBack) - Count(old(trace), OfGivenBack)
    {
      hide Count, Timed, AwaitFrom, DelayFrom, PhaseFrom, SetUpFrom, HandOverFrom, CloseFrom;
      r := Delay();
      if !r.SetUp? {
        return r;
      }
      var expired, made := Phase(RECONNECT_SETUP_TIMEOUT);
      if made.Stopped? {
        return SetupStopped;
      }
      if expired || made.TimedOut? || !made.event.ok {
        return SetupFailed;
      }
      Note(Opens);
      var handoff := SetUpTransport();
      r := handoff.setup;
      if r.SetupFailed? {
        var stopped := Close();
        if stopped {
          return SetupStopped;
        }
        return SetupFailed;
      }
      if r.SetupStopped? {
        return r;
      }
      r := HandOver(handoff.limit, handoff.clampedAt);
    }

    /** The offer and the signaling server of a replacement transport, then the engine prepared for it;
        the time of the handoff is computed before that. */
    method SetUpTransport() returns (r: Handoff)
      requires Valid()
      modifies this
      ensures Valid() && After(Now(), r) == SetUpFrom(Given(), old(Now()))
      ensures r.setup.SetUp? ==> next > old(next) && !reconnecting
      ensures r.setup.SetUp? ==> r.limit == REMOTE_TIMEOUT && r.clampedAt <= now && NEGOTIATION_TIMEOUT < deadline - r.clampedAt
      ensures forall kind :: Count(trace, kind) == Count(old(trace), kind)
    {
      hide Count, Timed, AwaitFrom, PhaseFrom;
      var expired, offered := Phase(RECONNECT_SETUP_TIMEOUT);
      if offered.Stopped? || offered.TimedOut? || !offered.event.ok {
        return NoHandoff(offered);
      }
      var bound;
      expired, bound := Phase(RECONNECT_SETUP_TIMEOUT);
      if bound.Stopped? || bound.TimedOut? || !bound.event.ok {
        return NoHandoff(bound);
      }
      var limit;
      expired, limit := Remaining(REMOTE_TIMEOUT);
      if expired {
        return NoHandoff(TimedOut);
      }
      var clampedAt := now;
      if deadline - now <= NEGOTIATION_TIMEOUT {
        return NoHandoff(TimedOut);
      }
      Note(Prepares(now));
      var prepared := Await(false, 0.0);
      if prepared.Stopped? || prepared.TimedOut? || !prepared.event.ok {
        return NoHandoff(prepared);
      }
      reconnecting := false;
      return Handoff(SetUp, limit, clampedAt);
    }

    /** The pairing handoff to the TV; a failed one stops the engine that was prepared for it. */
    method HandOver(limit: real, clampedAt: real) returns (r: Setup)
      requires Valid() && limit == REMOTE_TIMEOUT && clampedAt <= now && NEGOTIATION_TIMEOUT < deadline - clampedAt
      modifies this`next, this`now, this`trace
      ensures Valid() && After(Now(), r) == HandOverFrom(Given(), old(Now()), limit, clampedAt)
      ensures forall kind: Kind :: !kind.OfGivenBack? ==> Count(trace, kind) == Count(old(trace), kind)
      ensures r.SetUp? ==> Count(trace, OfGivenBack) == Count(old(trace), OfGivenBack)
      ensures r.SetupFailed? ==> Count(trace, OfGivenBack) == Count(old(trace), OfGivenBack) + 1
    {
      hide Count, Timed, StopEngineFrom;
      Note(HandsOver(now, limit, clampedAt));
      var handoff := Await(true, limit);
      if handoff.Stopped? {
        return SetupStopped;
      }
      if handoff.TimedOut? || !handoff.event.ok {
        var stopped := StopEngine();
        if stopped {
          return SetupStopped;
        }
        return SetupFailed;
      }
      return SetUp;
    }

    /** Ends the task: the engine is stopped, then the capture released, once. */
    method Fail(stopEngine: bool) returns (end: End)
      requires Valid()
      modifies this
      ensures Valid() && After(Now(), end) == FailFrom(Given(), old(Now()), stopEngine)
      ensures forall kind: Kind :: !kind.OfGivenBack? && !kind.OfRelease? ==> Count(trace, kind) == Count(old(trace), kind)
      ensures Count(trace, OfRelease) <= Count(old(trace), OfRelease) + 1
      ensures end.Ended? ==> EndedCleanly(old(trace))
    {
      if stopEngine {
        var stopped := StopEngine();
        if stopped {
          return WasStopped;
        }
      }
      var stopped := ReleaseAfterFailure();
      return if stopped then WasStopped else Ended;
    }

    /** After a lost link: claims an attempt and sets it up, or ends the task. */
    method Retry(error: EngineError, budget: ReconnectBudget) returns (going: bool, end: End)
      requires Valid() && budget.used <= budget.maximum == MAX_RECONNECT_ATTEMPTS
      modifies this, budget
      ensures Valid() && budget.used <= budget.maximum
      ensures After(Now(), Verdict(going, budget.used, end)) == RetryFrom(Given(), old(Now()), error, old(budget.used))
      ensures Count(trace, OfReconnect) - Count(old(trace), OfReconnect) == budget.used - old(budget.used)
      ensures Count(trace, OfActivation) == Count(old(trace), OfActivation)
      ensures Count(trace, OfAccept) == Count(old(trace), OfAccept)
      ensures old(budget.used) <= budget.used <= old(budget.used) + 1
      ensures going ==> next > old(next) && !reconnecting && server && Count(trace, OfRelease) == Count(old(trace), OfRelease)
                        && budget.used == old(budget.used) + 1
      ensures Count(trace, OfRelease) <= Count(old(trace), OfRelease) + 1
      ensures !going && end.Ended? ==> EndedCleanly(old(trace))
    {
      hide Count, Timed, AwaitFrom, StopEngineFrom, FailFrom, CreateFrom;
      end := WasStopped;
      var stopped := StopEngine();
      if stopped {
        return false, WasStopped;
      }
      var granted, attempt := false, 0;
      if Reconnectable(error) {
        granted, attempt := budget.Claim();
      }
      if !granted {
        end := Fail(false);
        return false, end;
      }
      reconnecting := true;
      Note(Reconnects);
      var setup := CreateReconnectAttempt();
      match setup
      case SetupStopped =>
        return false, WasStopped;
      case SetupFailed =>
        end := Fail(false);
        return false, end;
      case SetUp =>
        server := true;
        return true, WasStopped;
    }

    /** `negotiate`, then `start_media`; either failure ends the task. */
    method Connect() returns (connected: bool, end: End)
      requires Valid()
      modifies this
      ensures Valid() && After(Now(), Reached(connected, end)) == ConnectFrom(Given(), old(Now()))
      ensures forall kind: Kind :: !kind.OfGivenBack? && !kind.OfRelease? ==> Count(trace, kind) == Count(old(trace), kind)
      ensures connected ==> reconnecting == old(reconnecting) && Count(trace, OfRelease) == Count(old(trace), OfRelease)
      ensures Count(trace, OfRelease) <= Count(old(trace), OfRelease) + 1
      ensures !connected && end.Ended? ==> EndedCleanly(old(trace))
    {
      hide Count, Timed, FailFrom, StartFrom;
      end := WasStopped;
      Note(Negotiates(now, NEGOTIATION_TIMEOUT));
      var negotiated := Await(true, NEGOTIATION_TIMEOUT);
      if negotiated.Stopped? {
        return false, WasStopped;
      }
      if negotiated.TimedOut? || !negotiated.event.ok {
        end := Fail(true);
        return false, end;
      }
      connected, end := StartMedia();
    }

    method StartMedia() returns (started: bool, end: End)
      requires Valid()
      modifies this
      ensures Valid() && After(Now(), Reached(started, end)) == StartFrom(Given(), old(Now()))
      ensures forall kind: Kind :: !kind.OfGivenBack? && !kind.OfRelease? ==> Count(trace, kind) == Count(old(trace), kind)
      ensures started ==> reconnecting == old(reconnecting) && Count(trace, OfRelease) == Count(old(trace), OfRelease)
      ensures Count(trace, OfRelease) <= Count(old(trace), OfRelease) + 1
      ensures !started && end.Ended? ==> EndedCleanly(old(trace))
    {
      Note(StartsMedia);
      var answer := Await(false, 0.0);
      if answer.Stopped? {
        return false, WasStopped;
      }
      if !answer.event.ok {
        end := Fail(true);
        return false, end;
      }
      return true, WasStopped;
    }

    /** Tells the bridge that the leased capture is used; a failure ends the task. */
    method Activate() returns (activated: bool, end: End)
      requires Valid()
      modifies this
      ensures Valid() && After(Now(), Reached(activated, end)) == ActivateFrom(Given(), old(Now()))
      ensures Count(trace, OfReconnect) == Count(old(trace), OfReconnect) && Count(trace, OfAccept) == Count(old(trace), OfAccept)
      ensures Count(trace, OfActivation) == Count(old(trace), OfActivation) + if activated then 1 else 0
      ensures activated ==> reconnecting == old(reconnecting) && Count(trace, OfRelease) == Count(old(trace), OfRelease)
      ensures Count(trace, OfRelease) <= Count(old(trace), OfRelease) + 1
      ensures !activated && end.Ended? ==> EndedCleanly(old(trace))
    {
      hide Count, Timed, FailFrom;
      Note(AsksActivation);
      var answer := Await(false, 0.0);
      if answer.Stopped? {
        return false, WasStopped;
      }
      if !answer.event.ok {
        end := Fail(true);
        return false, end;
      }
      Note(Activated);
      return true, WasStopped;
    }

    /** Polls the media until it ends or its link is lost. */
    method Watch() returns (r: Watched)
      requires Valid() && !reconnecting
      modifies this`next, this`now, this`trace
      ensures Valid() && After(Now(), r) == WatchFrom(Given(), old(Now()))
      ensures forall kind: Kind :: !kind.OfGivenBack? && !kind.OfRelease? ==> Count(trace, kind) == Count(old(trace), kind)
      ensures Count(trace, OfRelease) <= Count(old(trace), OfRelease) + 1
      ensures r.Lost? ==> next > old(next) && Count(trace, OfRelease) == Count(old(trace), OfRelease)
      ensures r.Finished? && r.end.Ended? ==> EndedCleanly(old(trace))
    {
      while true
        invariant Valid() && trace == old(trace) && old(next) <= next && WatchFrom(Given(), Now()) == WatchFrom(Given(), old(Now()))
        decreases |script| - next
      {
        var polled := Await(false, 0.0);
        if polled.Stopped? {
          return LeftWatching;
        }
        if polled.event.pending {
          continue;
        }
        if !polled.event.ok {
          return Lost(polled.event.error);
        }
        r := Finish();
        return;
      }
    }

    /** The media ended by itself: the transport is closed and the capture released. */
    method Finish() returns (r: Watched)
      requires Valid() && !reconnecting
      modifies this`next, this`now, this`trace
      ensures Valid() && After(Now(), r) == FinishFrom(Given(), old(Now())) && !r.Lost?
      ensures forall kind: Kind :: !kind.OfGivenBack? && !kind.OfRelease? ==> Count(trace, kind) == Count(old(trace), kind)
      ensures Count(trace, OfRelease) <= Count(old(trace), OfRelease) + 1
      ensures r.Finished? && r.end.Ended? ==> EndedCleanly(old(trace))
    {
      var stopped := Close();
      if stopped {
        return LeftWatching;
      }
      Note(Releases);
      var released := Await(false, 0.0);
      return Finished(if released.Stopped? then WasStopped else Ended);
    }

    /** The media after a link: the capture is activated once, then watched until it ends or its link
        is lost, which may be set up again. */
    method Play(budget: ReconnectBudget, capture: bool) returns (going: bool, activated: bool, end: End)
      requires Valid() && !reconnecting && budget.used <= budget.maximum == MAX_RECONNECT_ATTEMPTS && Count(trace, OfRelease) == 0
      modifies this, budget
      ensures Valid() && old(budget.used) <= budget.used <= budget.maximum
      ensures After(Now(), Tried(going, activated, budget.used, end)) == PlayFrom(Given(), old(Now()), old(budget.used), capture)
      ensures Count(trace, OfReconnect) - Count(old(trace), OfReconnect) == budget.used - old(budget.used)
      ensures Count(trace, OfAccept) == Count(old(trace), OfAccept)
      ensures Count(trace, OfActivation) == Count(old(trace), OfActivation) + if activated && !capture then 1 else 0
      ensures capture ==> activated
      ensures Count(trace, OfRelease) <= 1
      ensures going ==> !reconnecting && server && budget.used == old(budget.used) + 1 && Count(trace, OfRelease) == 0
      ensures !going && end.Ended? ==> EndedCleanly([])
    {
      assert Count([], OfRelease) == 0 && next <= |script|;
      hide Count, Valid, ActivateFrom, WatchFrom, RetryFrom;
      activated, going := capture, false;
      if !capture {
        activated, end := Activate();
        if !activated {
          return false, false, end;
        }
      }
      var watched := Watch();
      match watched
      case Lost(error) => going, end := Retry(error, budget);
      case Finished(how) => end := how;
      case LeftWatching => end := WasStopped;
    }

    /** Negotiates the link with an accepted receiver, then plays over it. */
    method Link(budget: ReconnectBudget, capture: bool) returns (going: bool, activated: bool, end: End)
      requires Valid() && !reconnecting && budget.used <= budget.maximum == MAX_RECONNECT_ATTEMPTS && Count(trace, OfRelease) == 0
      modifies this, budget
      ensures Valid() && old(budget.used) <= budget.used <= budget.maximum
      ensures After(Now(), Tried(going, activated, budget.used, end)) == LinkFrom(Given(), old(Now()), old(budget.used), capture)
      ensures Count(trace, OfReconnect) - Count(old(trace), OfReconnect) == budget.used - old(budget.used)
      ensures Count(trace, OfAccept) == Count(old(trace), OfAccept)
      ensures Count(trace, OfActivation) == Count(old(trace), OfActivation) + if activated && !capture then 1 else 0
      ensures capture ==> activated
      ensures Count(trace, OfRelease) <= 1
      ensures going ==> !reconnecting && server && budget.used == old(budget.used) + 1 && Count(trace, OfRelease) == 0
      ensures !going && end.Ended? ==> EndedCleanly([])
    {
      assert Count([], OfRelease) == 0;
      hide Count, Timed, Bounded, Is, ConnectFrom, PlayFrom;
      var connected;
      connected, end := Connect();
      if !connected {
        return false, capture, end;
      }
      going, activated, end := Play(budget, capture);
    }

    /** Waits for the receiver's answer, for what is left of the session or less. */
    method Accept() returns (r: Awaited)
      requires Valid() && server && !Expired(Given(), Now())
      modifies this`next, this`now, this`trace, this`server
      ensures Valid() && After(Now(), r) == AcceptFrom(Given(), old(Now()))
      ensures forall kind :: Count(trace, kind) == Count(old(trace), kind) + if kind.OfAccept? then 1 else 0
    {
      var _, limit := Remaining(NEGOTIATION_TIMEOUT);
      assert server;  // every attempt owns one signaling server
      server := false;
      Note(Accepts(now, limit));
      r := Await(true, limit);
    }

    /** One attempt: the receiver is accepted, the link negotiated, the media watched, and the link, if
        it is lost, set up again. The attempt's signaling server is used up by its accept. */
    method Attempt(budget: ReconnectBudget, capture: bool) returns (going: bool, activated: bool, end: End)
      requires Valid() && !reconnecting && server && Count(trace, OfRelease) == 0
      requires budget.used <= budget.maximum == MAX_RECONNECT_ATTEMPTS
      modifies this, budget
      ensures Valid() && old(budget.used) <= budget.used <= budget.maximum
      ensures After(Now(), Tried(going, activated, budget.used, end)) == AttemptFrom(Given(), old(Now()), old(budget.used), capture)
      ensures Count(trace, OfReconnect) - Count(old(trace), OfReconnect) == budget.used - old(budget.used)
      ensures Count(trace, OfAccept) <= Count(old(trace), OfAccept) + 1
      ensures Count(trace, OfActivation) == Count(old(trace), OfActivation) + if activated && !capture then 1 else 0
      ensures capture ==> activated
      ensures Count(trace, OfRelease) <= 1
      ensures going ==> !reconnecting && server && budget.used == old(budget.used) + 1 && Count(trace, OfRelease) == 0
      ensures !going && end.Ended? ==> EndedCleanly([])
    {
      assert Count([], OfRelease) == 0 && next <= |script|;
      hide Count, Valid, LinkFrom, RetryFrom, FailFrom, AcceptFrom;
      activated := capture;
      if deadline - now <= 0.0 {
        end := Fail(true);
        return false, activated, end;
      }
      var answer := Accept();
      if answer.Stopped? {
        return false, activated, WasStopped;
      }
      if answer.TimedOut? || !answer.event.ok {
        going, end := Retry(if answer.TimedOut? then NegotiationTimeout else answer.event.error, budget);
        return;
      }
      assert answer.Came? && answer.event.ok;  // an attempt without an answer never gets here
      going, activated, end := Link(budget, capture);
    }

    /** The supervision task. */
    method Supervise() returns (end: End)
      requires Valid() && !reconnecting && server && trace == []
      modifies this
      ensures Valid() && After(Now(), end) == SuperviseFrom(Given(), old(Now()), 0, false)
      ensures Count(trace, OfReconnect) <= MAX_RECONNECT_ATTEMPTS && Count(trace, OfActivation) <= 1
      ensures Count(trace, OfAccept) <= Count(trace, OfReconnect) + 1
      ensures Count(trace, OfRelease) <= 1
      ensures end.Ended? ==> EndedCleanly([])
    {
      assert forall kind :: Count(trace, kind) == 0;
      hide Count, Timed, AttemptFrom;
      var budget := new ReconnectBudget(MAX_RECONNECT_ATTEMPTS);
      var captureActivated, going := false, true;
      end := WasStopped;
      while going
        invariant Valid() && fresh(budget) && budget.maximum == MAX_RECONNECT_ATTEMPTS && budget.used <= budget.maximum
        invariant SuperviseFrom(Given(), old(Now()), 0, false) ==
                    if going then SuperviseFrom(Given(), Now(), budget.used, captureActivated) else After(Now(), end)
        invariant Count(trace, OfReconnect) == budget.used && Count(trace, OfRelease) <= 1
        invariant Count(trace, OfAccept) <= budget.used + if going then 0 else 1
        invariant Count(trace, OfActivation) == if captureActivated then 1 else 0
        invariant going ==> !reconnecting && server && Count(trace, OfRelease) == 0
        invariant !going && end.Ended? ==> EndedCleanly([])
        decreases |script| - next, going
      {
        going, captureActivated, end := Attempt(budget, captureActivated);
      }
    }
  }

  /** Over every script of outcomes: the task does what its specification says; it makes at most two
      reconnections and activates the capture at most once; every limited wait but a negotiation is over
      by the deadline, a handoff when the engine was prepared within 10 seconds; and when the task ends
      by itself it has released the capture exactly once, last, and reconnects no more. */
  method SuperviseScript(script: seq<Event>, start: real, deadline: real)
    returns (end: End, trace: seq<Act>, reconnecting: bool)
    requires forall e :: e in script ==> 0.0 <= e.elapsed
    ensures var n := SuperviseFrom(Surroundings(script, deadline), Started(start), 0, false);
            end == n.r && trace == n.s.trace && reconnecting == n.s.reconnecting
    ensures Count(trace, OfReconnect) <= MAX_RECONNECT_ATTEMPTS && Count(trace, OfActivation) <= 1
    ensures Count(trace, OfAccept) <= Count(trace, OfReconnect) + 1 && Count(trace, OfRelease) <= 1
    ensures Timed(trace, deadline)
    ensures forall a :: a in trace && !a.Negotiates? && (a.HandsOver? ==> a.at <= a.clampedAt + 10.0) ==> InTime(a, deadline)
    ensures end.Ended? ==>
              !reconnecting && Count(trace, OfRelease) == 1 && trace != [] && trace[|trace| - 1] == Releases
  {
    var session := new Session(script, start, deadline);
    end := session.Supervise();
    trace, reconnecting := session.trace, session.reconnecting;
  }
}
