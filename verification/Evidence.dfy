/** The offline, fail-closed classification of C6 and C7 evidence from loaded trace events. */
module Evidence {
  import opened Domain
  import opened CommandTrace

  /** Why a stream is not complete evidence. */
  datatype Gap = NotContiguous | SequenceContradicts | ReportedLoss | NoFinalOutcome

  datatype Reason =
    | NoEvent | NotOneRemote | RemoteTrace(gap: Gap) | NotOneCommand | NoObserver | ObserverTrace(gap: Gap)
    | ChangedBeforeHold | HoldNotReleased | Missing(event: EventName) | RemoteOrder | ReadBeforeRelease
    | NotBoundToCaptured | ObserverOrder | ObserverSawOther | NoOtherSession | OtherToken
    | ConfirmedElsewhere
    | NotOneSend | Replayed | RecordsRetry | NotAmbiguous | TransportAnswered | NoOrder

  /** PASS; FAIL, demonstrated by complete evidence; BLOCKED, no usable evidence. */
  datatype Classification = Pass | Fail(reason: Reason) | Blocked(reason: Reason)

  /** A check's outcome: its value, a demonstrated violation, or no usable evidence. */
  datatype Checked<+T> = Ok(value: T) | Rejected(reason: Reason) | NotUsable(reason: Reason) {
    predicate IsFailure() { !Ok? }
    function PropagateFailure<U>(): Checked<U> requires !Ok? {
      if Rejected? then Rejected(reason) else NotUsable(reason)
    }
    function Extract(): T requires Ok? { value }
  }

  /** Rejects with `reason` unless `condition` holds. */
  function Demand(condition: bool, reason: Reason): Checked<()> {
    if condition then Ok(()) else Rejected(reason)
  }

  /** Finds no usable evidence unless `condition` holds. */
  function Usable(condition: bool, reason: Reason): Checked<()> {
    if condition then Ok(()) else NotUsable(reason)
  }

  // ---------------------------------------------------------------- streams

  predicate Belongs(e: TraceEvent, requestId: RequestId, client: Role) {
    e.requestId == requestId && e.client == client
  }

  function Select(events: seq<TraceEvent>, requestId: RequestId, client: Role): seq<TraceEvent> {
    if events == [] then []
    else
      var last := events[|events| - 1];
      Select(events[..|events| - 1], requestId, client) + if Belongs(last, requestId, client) then [last] else []
  }

  /** Stable insertion: after every event whose index is not greater. */
  function Insert(sorted: seq<TraceEvent>, e: TraceEvent): seq<TraceEvent> {
    if sorted == [] || sorted[|sorted| - 1].index <= e.index then sorted + [e]
    else Insert(sorted[..|sorted| - 1], e) + [sorted[|sorted| - 1]]
  }

  function SortByIndex(events: seq<TraceEvent>): seq<TraceEvent> {
    if events == [] then [] else Insert(SortByIndex(events[..|events| - 1]), events[|events| - 1])
  }

  /** One client's events for one request, by index. */
  function Stream(events: seq<TraceEvent>, requestId: RequestId, client: Role): seq<TraceEvent> {
    SortByIndex(Select(events, requestId, client))
  }

  predicate Sorted(stream: seq<TraceEvent>) {
    forall i, j :: 0 <= i < j < |stream| ==> stream[i].index <= stream[j].index
  }

  lemma {:induction false} InsertSorts(sorted: seq<TraceEvent>, e: TraceEvent)
    requires Sorted(sorted)
    ensures Sorted(Insert(sorted, e)) && multiset(Insert(sorted, e)) == multiset(sorted) + multiset{e}
  {
    if sorted != [] && e.index < sorted[|sorted| - 1].index {
      var front, last := sorted[..|sorted| - 1], sorted[|sorted| - 1];
      assert sorted == front + [last];
      InsertSorts(front, e);
      AppendSorted(front, e, Insert(front, e), last);
    }
  }

  lemma AppendSorted(front: seq<TraceEvent>, e: TraceEvent, inserted: seq<TraceEvent>, last: TraceEvent)
    requires Sorted(inserted) && multiset(inserted) == multiset(front) + multiset{e}
    requires Sorted(front + [last]) && e.index < last.index
    ensures Sorted(inserted + [last])
  {
    forall i | 0 <= i < |inserted| ensures inserted[i].index <= last.index {
      assert inserted[i] in multiset(inserted);
      if inserted[i] != e {
        var j :| 0 <= j < |front| && front[j] == inserted[i];
        assert (front + [last])[j] == front[j] && (front + [last])[|front|] == last;
      }
    }
  }

  /** Sorting by index orders a stream and keeps every event exactly as often as it was loaded. */
  lemma {:induction false} SortSorts(events: seq<TraceEvent>)
    ensures Sorted(SortByIndex(events)) && multiset(SortByIndex(events)) == multiset(events)
  {
    if events != [] {
      var front, last := events[..|events| - 1], events[|events| - 1];
      assert events == front + [last];
      SortSorts(front);
      InsertSorts(SortByIndex(front), last);
    }
  }

  lemma {:induction false} SelectIsExact(events: seq<TraceEvent>, requestId: RequestId, client: Role, e: TraceEvent)
    ensures multiset(Select(events, requestId, client))[e] ==
              if Belongs(e, requestId, client) then multiset(events)[e] else 0
  {
    if events != [] {
      var front, last := events[..|events| - 1], events[|events| - 1];
      assert events == front + [last];
      SelectIsExact(front, requestId, client, e);
    }
  }

  lemma StreamMembers(events: seq<TraceEvent>, requestId: RequestId, client: Role)
    ensures forall e :: e in Stream(events, requestId, client) <==> e in events && Belongs(e, requestId, client)
  {
    var selected := Select(events, requestId, client);
    SortSorts(selected);
    forall e
      ensures e in Stream(events, requestId, client) <==> e in events && Belongs(e, requestId, client)
    {
      SelectIsExact(events, requestId, client, e);
      assert e in Stream(events, requestId, client) <==> multiset(SortByIndex(selected))[e] > 0;
    }
  }

  lemma DropLast(s: seq<TraceEvent>)
    requires s != []
    ensures Sorted(s) ==> Sorted(s[..|s| - 1])
    ensures Contiguous(s) ==> Contiguous(s[..|s| - 1])
    ensures s == s[..|s| - 1] + [s[|s| - 1]]
    ensures multiset(s[..|s| - 1]) == multiset(s) - multiset{s[|s| - 1]}
  {
    assert s == s[..|s| - 1] + [s[|s| - 1]];
  }

  lemma LastIsLast(stream: seq<TraceEvent>, log: seq<TraceEvent>)
    requires Sorted(stream) && multiset(stream) == multiset(log) && Contiguous(log) && log != []
    ensures |stream| == |log| && stream[|log| - 1] == log[|log| - 1]
  {
    assert |stream| == |multiset(stream)| == |log|;
    var n := |log| - 1;
    assert log[n] in multiset(stream);
    assert stream[n] in multiset(log);
  }

  /** The stream of a complete, contiguous log is that log, however its events were loaded. */
  lemma {:induction false} SortedIsLog(stream: seq<TraceEvent>, log: seq<TraceEvent>)
    requires Sorted(stream) && multiset(stream) == multiset(log) && Contiguous(log)
    ensures stream == log
  {
    hide Sorted, Contiguous;
    assert |stream| == |multiset(stream)| == |log|;
    if log != [] {
      LastIsLast(stream, log);
      DropLast(stream);
      DropLast(log);
      SortedIsLog(stream[..|stream| - 1], log[..|log| - 1]);
    }
  }

  /** `_streams`: groups the events of one request by client, then sorts each group in place. */
  method Streams(events: seq<TraceEvent>, requestId: RequestId) returns (streams: map<Role, seq<TraceEvent>>)
    ensures forall c :: c in streams <==> Select(events, requestId, c) != []
    ensures forall c :: c in streams ==> streams[c] == Stream(events, requestId, c)
  {
    streams := map[];
    for i := 0 to |events|
      invariant forall c :: c in streams <==> Select(events[..i], requestId, c) != []
      invariant forall c :: c in streams ==> streams[c] == Select(events[..i], requestId, c)
    {
      var e := events[i];
      assert events[..i + 1][..i] == events[..i];
      if e.requestId == requestId {
        streams := streams[e.client := (if e.client in streams then streams[e.client] else []) + [e]];
      }
    }
    assert events[..|events|] == events;
    var pending := streams.Keys;
    while pending != {}
      invariant pending <= streams.Keys
      invariant forall c :: c in streams <==> Select(events, requestId, c) != []
      invariant forall c :: c in streams ==>
                  streams[c] == if c in pending then Select(events, requestId, c) else Stream(events, requestId, c)
    {
      var c :| c in pending;
      streams := streams[c := SortByIndex(streams[c])];
      pending := pending - {c};
    }
  }

  // ---------------------------------------------------------------- integrity

  predicate Contiguous(stream: seq<TraceEvent>) {
    forall k :: 0 <= k < |stream| ==> stream[k].index == k
  }

  predicate SequenceGrows(stream: seq<TraceEvent>) {
    forall i, j :: 0 <= i < j < |stream| ==> stream[i].sequence < stream[j].sequence
  }

  function Count(stream: seq<TraceEvent>, names: set<EventName>): nat {
    if stream == [] then 0
    else Count(stream[..|stream| - 1], names) + if stream[|stream| - 1].event in names then 1 else 0
  }

  const TERMINALS: set<EventName> :=
    {CommandConfirmed, CommandUnconfirmed, ConfirmationSkipped, AmbiguousResult, NotSent, CommandWasRejected}

  lemma {:induction false} CountZero(stream: seq<TraceEvent>, names: set<EventName>)
    ensures Count(stream, names) == 0 <==> forall e :: e in stream ==> e.event !in names
  {
    if stream != [] {
      var front, last := stream[..|stream| - 1], stream[|stream| - 1];
      assert stream == front + [last];
      CountZero(front, names);
    }
  }

  function IntegrityProblem(stream: seq<TraceEvent>, terminal: bool): Option<Gap> {
    if !Contiguous(stream) then Some(NotContiguous)
    else if !SequenceGrows(stream) then Some(SequenceContradicts)
    else if exists e :: e in stream && e.event == TraceIncomplete then Some(ReportedLoss)
    else if terminal && (Count(stream, TERMINALS) != 1 || !Terminal(stream[|stream| - 1].event)) then
      Some(NoFinalOutcome)
    else None
  }

  /** What an accepted remote stream is: contiguous, in sequence, without a reported loss, and with
      its one final outcome last. */
  lemma CompleteExactlyWhen(stream: seq<TraceEvent>)
    ensures IntegrityProblem(stream, true) == None <==>
              && Contiguous(stream) && SequenceGrows(stream)
              && (forall e :: e in stream ==> e.event != TraceIncomplete)
              && stream != [] && Terminal(stream[|stream| - 1].event)
              && (forall k :: 0 <= k < |stream| - 1 ==> !Terminal(stream[k].event))
  {
    if stream != [] {
      CountZero(stream[..|stream| - 1], TERMINALS);
    }
  }

  // ---------------------------------------------------------------- the acting remote

  function CommandsOf(stream: seq<TraceEvent>): set<Command> {
    set e | e in stream && e.command.Some? :: e.command.value
  }

  /** The acting remote's stream, or why there is no usable one. */
  function Acting(events: seq<TraceEvent>, requestId: RequestId): Checked<seq<TraceEvent>> {
    var ubuntu := Stream(events, requestId, Ubuntu);
    var android := Stream(events, requestId, Android);
    var observer := Stream(events, requestId, ObserverRole);
    if ubuntu == [] && android == [] && observer == [] then NotUsable(NoEvent)
    else if (ubuntu == []) == (android == []) then NotUsable(NotOneRemote)
    else
      var stream := if ubuntu != [] then ubuntu else android;
      var problem := IntegrityProblem(stream, true);
      if problem.Some? then NotUsable(RemoteTrace(problem.value))
      else if |CommandsOf(stream)| != 1 then NotUsable(NotOneCommand)
      else Ok(stream)
  }

  function First(stream: seq<TraceEvent>, name: EventName): Checked<TraceEvent> {
    if stream == [] then Rejected(Missing(name))
    else if stream[0].event == name then Ok(stream[0])
    else First(stream[1..], name)
  }

  lemma {:induction false} FirstAt(stream: seq<TraceEvent>, name: EventName, k: nat)
    requires k < |stream| && stream[k].event == name
    requires forall j :: 0 <= j < k ==> stream[j].event != name
    ensures First(stream, name) == Ok(stream[k])
  {
    if k > 0 {
      FirstAt(stream[1..], name, k - 1);
    }
  }

  lemma {:induction false} FirstIsThere(stream: seq<TraceEvent>, name: EventName)
    ensures First(stream, name).Ok? ==>
              First(stream, name).value in stream && First(stream, name).value.event == name
    ensures !First(stream, name).Ok? ==>
              First(stream, name) == Rejected(Missing(name)) && forall e :: e in stream ==> e.event != name
  {
    if stream != [] && stream[0].event != name {
      FirstIsThere(stream[1..], name);
      assert stream == [stream[0]] + stream[1..];
    }
  }

  // ---------------------------------------------------------------- C6

  predicate Has(stream: seq<TraceEvent>, name: EventName) {
    exists e :: e in stream && e.event == name
  }

  function CheckC6(events: seq<TraceEvent>, requestId: RequestId): Checked<()> {
    var acting :- Acting(events, requestId);
    var observer := Stream(events, requestId, ObserverRole);
    var _ :- Usable(observer != [], NoObserver);
    match IntegrityProblem(observer, false)
    case Some(gap) => NotUsable(ObserverTrace(gap))
    case None => CheckC6Streams(acting, observer)
  }

  /** The part of the C6 check that complete evidence decides. */
  function CheckC6Streams(acting: seq<TraceEvent>, observer: seq<TraceEvent>): Checked<()> {
    var _ :- Demand(!Has(observer, ObserverAlreadyChanged), ChangedBeforeHold);
    var _ :- Demand(!Has(acting, ConfirmationHoldTimeout) && !Has(acting, ConfirmationHoldFailed), HoldNotReleased);
    var pre :- First(acting, PreStatus);
    var send :- First(acting, SendAttempt);
    var response :- First(acting, TransportResponse);
    var held :- First(acting, ConfirmationHeld);
    var released :- First(acting, ConfirmationReleased);
    var _ :- Demand(pre.index < send.index < response.index < held.index < released.index, RemoteOrder);
    var _ :- Demand(Has(acting, ConfirmationStatus) && !ReadBefore(acting, released.index), ReadBeforeRelease);
    var _ :- Demand(pre.session.Some? && send.session == pre.session && held.session == pre.session, NotBoundToCaptured);
    var seen :- First(observer, ObserverHoldSeen);
    var change :- First(observer, IndependentSessionChange);
    var release :- First(observer, ObserverReleaseSent);
    var _ :- Demand(seen.index < change.index < release.index, ObserverOrder);
    var _ :- Demand(seen.session == pre.session, ObserverSawOther);
    var _ :- Demand(change.session.Some? && change.session != pre.session, NoOtherSession);
    var _ :- Demand(released.token.Some? && release.token == released.token, OtherToken);
    Demand(!ConfirmedOffSession(acting, pre.session), ConfirmedElsewhere)
  }

  predicate ReadBefore(acting: seq<TraceEvent>, index: nat) {
    exists e :: e in acting && e.event == ConfirmationStatus && e.index < index
  }

  predicate ConfirmedOffSession(acting: seq<TraceEvent>, session: Option<nat>) {
    exists e :: e in acting && e.event == CommandConfirmed && e.session != session
  }

  function Verdict(checked: Checked<()>): Classification {
    match checked
    case Ok(_) => Pass
    case Rejected(reason) => Fail(reason)
    case NotUsable(reason) => Blocked(reason)
  }

  function ClassifyC6(events: seq<TraceEvent>, requestId: RequestId): Classification {
    Verdict(CheckC6(events, requestId))
  }

  // ---------------------------------------------------------------- C7

  /** The one application request a stream belongs to, or none when it names none or several. */
  function OrderOf(acting: seq<TraceEvent>): Option<OrderId> {
    if acting != [] && forall e :: e in acting ==> e.order == acting[0].order then acting[0].order else None
  }

  predicate IsSendOf(e: TraceEvent, order: OrderId) {
    e.order == Some(order) && Remote(e.client) && e.event == SendAttempt
  }

  /** Every send of the order, whichever invocation made it. */
  function SendsOf(events: seq<TraceEvent>, order: OrderId): seq<TraceEvent> {
    if events == [] then []
    else
      var last := events[|events| - 1];
      SendsOf(events[..|events| - 1], order) + if IsSendOf(last, order) then [last] else []
  }

  function CheckC7(events: seq<TraceEvent>, requestId: RequestId): Checked<()> {
    var acting :- Acting(events, requestId);
    var _ :- Demand(Count(acting, {SendAttempt}) == 1, NotOneSend);
    var order := OrderOf(acting);
    var _ :- Demand(order.Some? ==> |SendsOf(events, order.value)| == 1, Replayed);
    var _ :- Demand(!Has(acting, AutomaticRetry) && !Has(acting, Replay), RecordsRetry);
    var _ :- Demand(acting != [] && acting[|acting| - 1].event == AmbiguousResult, NotAmbiguous);
    var _ :- Demand(!Has(acting, TransportResponse), TransportAnswered);
    Usable(order.Some?, NoOrder)
  }

  function ClassifyC7(events: seq<TraceEvent>, requestId: RequestId): Classification {
    Verdict(CheckC7(events, requestId))
  }
}
