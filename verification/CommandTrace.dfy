/** Command traces: the events one recorder stamps and the lossy sink it writes them to. */
module CommandTrace {
  import opened Domain

  // Opaque identifiers, only ever compared for equality.
  type RequestId = nat
  type OrderId = nat
  type Token = nat

  datatype Role = Ubuntu | Android | ObserverRole

  predicate Remote(role: Role) { role.Ubuntu? || role.Android? }

  datatype EventName =
    | CommandPrepared | PreStatus | SendAttempt | TransportResponse | CommandFailed | UnexpectedError
    | ConfirmationHeld | ConfirmationReleased | ConfirmationHoldTimeout | ConfirmationHoldFailed
    | ConfirmationStatus | ConfirmationReadFailed | ConfirmationSessionChanged
    | ConfirmationUnexpectedError
    | CommandConfirmed | CommandUnconfirmed | ConfirmationSkipped | AmbiguousResult | NotSent
    | CommandWasRejected
    | TraceIncomplete
    | ObserverHoldSeen | ObserverAlreadyChanged | ObserverReadFailed | IndependentSessionChange
    | ObserverReleaseSent | ObserverTimeout
    | AutomaticRetry | Replay  // named by the C7 check, recorded by no product code

  predicate Terminal(event: EventName) {
    event.CommandConfirmed? || event.CommandUnconfirmed? || event.ConfirmationSkipped?
    || event.AmbiguousResult? || event.NotSent? || event.CommandWasRejected?
  }

  datatype TraceEvent = TraceEvent(
    sequence: nat,
    client: Role,
    event: EventName,
    requestId: RequestId,
    index: nat,
    session: Option<nat>,
    command: Option<Command>,
    error: Option<ErrorCode>,
    token: Option<Token>,
    order: Option<OrderId>)

  /** What a caller asks to record about its request. */
  datatype Emission = Emission(event: EventName, session: Option<nat>, error: Option<ErrorCode>, token: Option<Token>)

  function Plain(event: EventName): Emission { Emission(event, None, None, None) }
  function OnSession(event: EventName, session: Option<nat>): Emission { Emission(event, session, None, None) }

  /** The request an event belongs to: its id, its command (none for an observer) and its order. */
  datatype Subject = Subject(requestId: RequestId, command: Option<Command>, order: Option<OrderId>)

  datatype RecorderState = RecorderState(
    sequence: nat, indexes: map<RequestId, nat>, incomplete: set<RequestId>)
  {
    function NextIndex(requestId: RequestId): nat {
      if requestId in indexes then indexes[requestId] else 0
    }
  }

  const NEW_RECORDER := RecorderState(0, map[], {})

  function Stamped(s: RecorderState, role: Role, subject: Subject, e: Emission): TraceEvent {
    TraceEvent(s.sequence + 1, role, e.event, subject.requestId, s.NextIndex(subject.requestId),
               e.session, subject.command, e.error, e.token, subject.order)
  }

  function AfterStamp(s: RecorderState, subject: Subject): RecorderState {
    s.(sequence := s.sequence + 1,
       indexes := s.indexes[subject.requestId := s.NextIndex(subject.requestId) + 1])
  }

  function AfterWrite(s: RecorderState, subject: Subject, event: EventName, written: bool): RecorderState {
    if !written then s.(incomplete := s.incomplete + {subject.requestId})
    else if event == TraceIncomplete then s.(incomplete := s.incomplete - {subject.requestId})
    else s
  }

  /** What one `record` call stamps and what of it reaches the sink. */
  datatype Recording = Recording(state: RecorderState, stamped: seq<TraceEvent>, written: seq<TraceEvent>)

  function RecordOne(s: RecorderState, role: Role, subject: Subject, e: Emission, written: bool): Recording {
    var event := Stamped(s, role, subject, e);
    Recording(AfterWrite(AfterStamp(s, subject), subject, e.event, written),
              [event], if written then [event] else [])
  }

  /** A call for a request with a lost event first tries to say so. */
  function RecordCall(
    s: RecorderState, role: Role, subject: Subject, e: Emission, wroteMarker: bool, wroteEvent: bool): Recording
  {
    if subject.requestId in s.incomplete && e.event != TraceIncomplete then
      var first := RecordOne(s, role, subject, Plain(TraceIncomplete), wroteMarker);
      var second := RecordOne(first.state, role, subject, e, wroteEvent);
      Recording(second.state, first.stamped + second.stamped, first.written + second.written)
    else
      RecordOne(s, role, subject, e, wroteEvent)
  }

  /** The recorder of one process. `file` is what its sink holds; whether a write succeeds is
      decided by the caller's arguments, never by the recorder. */
  class TraceRecorder {
    const role: Role
    const active: bool
    var sequence: nat
    var indexes: map<RequestId, nat>
    var incomplete: set<RequestId>
    var file: seq<TraceEvent>

    constructor (role: Role, active: bool)
      ensures this.role == role && this.active == active
      ensures State() == NEW_RECORDER && file == []
    {
      this.role, this.active := role, active;
      sequence, indexes, incomplete, file := 0, map[], {}, [];
    }

    function State(): RecorderState
      reads this
    {
      RecorderState(sequence, indexes, incomplete)
    }

    /** Records one event. A failed write changes neither the caller nor any other request; it only
        leaves the gap, and the request marked until `trace_incomplete` is written. */
    method Record(subject: Subject, e: Emission, wroteMarker: bool, wroteEvent: bool)
      modifies this
      ensures !active ==> State() == old(State()) && file == old(file)
      ensures active ==>
                var call := RecordCall(old(State()), role, subject, e, wroteMarker, wroteEvent);
                State() == call.state && file == old(file) + call.written
      decreases if e.event == TraceIncomplete then 0 else 1
    {
      if !active {
        return;
      }
      if subject.requestId in incomplete && e.event != TraceIncomplete {
        Record(subject, Plain(TraceIncomplete), wroteMarker, wroteMarker);
      }
      Stamp(subject, e, wroteEvent);
      hide RecordOne;
    }

    // The second half of `Record`: the event is numbered, whether or not the sink takes it.
    method Stamp(subject: Subject, e: Emission, written: bool)
      modifies this
      ensures var one := RecordOne(old(State()), role, subject, e, written);
              State() == one.state && file == old(file) + one.written
    {
      sequence := sequence + 1;
      var index := if subject.requestId in indexes then indexes[subject.requestId] else 0;
      indexes := indexes[subject.requestId := index + 1];
      var stamped := TraceEvent(sequence, role, e.event, subject.requestId, index,
                                e.session, subject.command, e.error, e.token, subject.order);
      if !written {
        incomplete := incomplete + {subject.requestId};
        return;
      }
      file := file + [stamped];
      if e.event == TraceIncomplete {
        incomplete := incomplete - {subject.requestId};
      }
    }
  }
}
