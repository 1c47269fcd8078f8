/** What every command and every observer of a reachable run keeps about its own trace: the order
    of its phases, and the stamped log as the faithful, gap-revealing record of them. */
module RunShape {
  import opened Domain
  import opened Confirmation
  import opened CommandTrace
  import opened AcceptanceRun

  // ---------------------------------------------------------------- a command's phases

  /** The expectation of a playback command carries the identity captured with its session. */
  predicate BoundToTarget(c: Cmd) {
    var identity := ExpectedIdentity(c.expectation);
    && c.expectation == Bind(c.args, identity)
    && (identity.Some? ==> identity.value.sessionId == c.target)
  }

  predicate ReadEvent(event: EventName) {
    event.ConfirmationStatus? || event.ConfirmationReadFailed? || event.ConfirmationSessionChanged?
  }

  predicate OnlyReads(events: seq<Emission>) {
    forall e :: e in events ==> ReadEvent(e.event)
  }

  lemma OnlyReadsConcat(a: seq<Emission>, b: seq<Emission>)
    requires OnlyReads(a) && OnlyReads(b)
    ensures OnlyReads(a + b)
  {
  }

  /** Each part only after the one before it. */
  predicate PartsInOrder(c: Cmd) {
    && ArgsFit(c.command, c.args)
    && (if c.captured then TargetsSession(c.command) && c.target.Some? && BoundToTarget(c)
        else c.target == None && c.expectation == c.args)
    && (c.sent && TargetsSession(c.command) ==> c.captured)
    && (c.answered ==> c.sent)
    && (c.hold != NoHold ==> c.answered && TargetsSession(c.command))
    && (c.observed != [] ==> c.answered && c.hold != OnHold)
    && OnlyReads(c.observed)
  }

  /** A playback command is only ever confirmed on the captured session, or, for stop, by its end. */
  predicate EndingFits(c: Cmd) {
    match c.ending
    case BeforeSend(_, _) => !c.sent
    case AtSend(outcome) => c.sent && !c.answered && !outcome.Accepted?
    case ConfirmedOn(session) =>
      c.answered && (TargetsSession(c.command) ==> session == c.target || (c.command == Stop && session == None))
    case Unchecked => c.answered && c.observed == []
    case NotConfirmed(_, _) => c.answered
    case _ => false
  }

  predicate PhaseFits(c: Cmd) {
    match c.phase
    case Prepared => !c.captured && !c.sent && c.ending == Open
    case Captured => c.captured && !c.sent && c.ending == Open
    case Announced => c.sent && !c.answered && c.ending == Open
    case InTransport => c.sent && !c.answered && c.ending == Open
    case Responded => c.answered && c.hold == NoHold && c.observed == [] && c.ending == Open
    case Holding => c.hold == OnHold && c.ending == Open
    case Held => c.hold == OnHold && c.ending == Open
    case Verifying => c.answered && c.hold != OnHold && c.ending == Open
    case Finished => c.hold != OnHold && EndingFits(c)
    case Escaped =>
      || (!c.captured && !c.sent && c.ending == Open)
      || (c.answered && c.hold != OnHold && c.ending == ReadEscapes)
  }

  predicate Shape(c: Cmd) {
    PartsInOrder(c) && PhaseFits(c)
  }

  lemma ConcatGrows(a: seq<Emission>, b: seq<Emission>, a2: seq<Emission>, b2: seq<Emission>)
    requires a <= a2 && b <= b2 && (a == a2 || b == [])
    ensures a + b <= a2 + b2
  {
    if a == a2 {
      assert a2 + b2 == a + b + b2[|b|..];
    } else {
      assert a + b == a;
    }
  }

  /** What an action never changes; of the trace's parts, only the last one begun may grow. */
  predicate Extends(c: Cmd, n: Cmd) {
    && n.id == c.id && n.process == c.process && n.command == c.command && n.order == c.order && n.args == c.args
    && n.recorded == c.recorded && n.log == c.log && n.file == c.file
    && c.ending == Open
    && (c.captured || c.sent ==> n.captured == c.captured && n.target == c.target)
    && (c.sent ==> n.sent)
    && (c.answered ==> n.answered && n.returnedAt == c.returnedAt && n.enteredAt == c.enteredAt)
    && (c.hold != NoHold ==> c.answered && (n.hold == c.hold || (c.hold == OnHold && n.hold != NoHold && c.observed == [])))
    && (c.observed != [] ==> c.hold == n.hold && c.answered)
    && (c.sent || (!c.answered && c.hold == NoHold && c.observed == []))
    && (c.answered || (c.hold == NoHold && c.observed == []))
    && c.observed <= n.observed
  }

  lemma ScriptGrows(c: Cmd, n: Cmd)
    requires Extends(c, n)
    ensures c.Script() <= n.Script()
  {
    var p := [Plain(CommandPrepared)];
    ConcatGrows(p, c.PreEvents(), p, n.PreEvents());
    ConcatGrows(p + c.PreEvents(), c.SendEvents(), p + n.PreEvents(), n.SendEvents());
    var a, b := p + c.PreEvents() + c.SendEvents(), p + n.PreEvents() + n.SendEvents();
    ConcatGrows(a, c.AnswerEvents(), b, n.AnswerEvents());
    ConcatGrows(a + c.AnswerEvents(), c.HoldEvents(), b + n.AnswerEvents(), n.HoldEvents());
    a, b := a + c.AnswerEvents() + c.HoldEvents(), b + n.AnswerEvents() + n.HoldEvents();
    ConcatGrows(a, c.observed, b, n.observed);
    ConcatGrows(a + c.observed, c.EndEvents(), b + n.observed, n.EndEvents());
  }

  /** A matching read of an identity-bound expectation shows the captured session (or, for stop, none). */
  lemma MatchOnTarget(c: Cmd, status: DeviceStatus)
    requires PartsInOrder(c) && TargetsSession(c.command) && c.captured
    requires Matches(c.expectation, c.seen, status)
    ensures status.Session() == c.target || (c.command == Stop && status.Session() == None)
  {
    var identity := ExpectedIdentity(c.expectation);
    if status.media.Some? {
      var media := status.media.value;
      assert MismatchAfter(identity, c.seen, media).None?;
      assert identity.Some? && c.seen.None?;
      IdentityDecision(identity.value, media);
    }
  }

  lemma IdentityBound(c: Cmd, media: MediaStatus)
    requires ArgsFit(c.command, c.args) && TargetsSession(c.command)
    ensures var identity := IdentityOf(media);
            && (identity.Some? ==> identity.value.sessionId == media.sessionId)
            && ExpectedIdentity(Bind(c.args, identity)) == identity
  {
  }

  lemma CaptureKeepsShape(c: Cmd, status: DeviceStatus)
    requires Shape(c) && c.phase == Prepared && TargetsSession(c.command)
    ensures Shape(AfterCapture(c, status)) && Extends(c, AfterCapture(c, status))
  {
    hide Cmd.Script, IdentityOf, Bind, ExpectedIdentity;
    if status.media.Some? {
      IdentityBound(c, status.media.value);
    }
  }

  lemma AnswerDecides(e: Expectation, seen: Option<Contradiction>, status: DeviceStatus, late: bool)
    ensures !AfterRead(e, seen, Answered(status), late).decision.Raise?
  {
  }

  lemma ConfirmMeansMatch(e: Expectation, seen: Option<Contradiction>, outcome: ReadOutcome, late: bool)
    ensures AfterRead(e, seen, outcome, late).decision == Confirm ==>
              outcome.Answered? && Matches(e, seen, outcome.status)
  {
  }

  lemma ReadKeepsObserved(c: Cmd, outcome: ReadOutcome, late: bool, now: nat)
    requires OnlyReads(c.observed)
    ensures OnlyReads(AfterStatusRead(c, outcome, late, now).observed)
    ensures c.observed <= AfterStatusRead(c, outcome, late, now).observed
  {
    hide AfterRead, Cmd.Script;
    if outcome.ReadFailed? {
      OnlyReadsConcat(c.observed, [Emission(ConfirmationReadFailed, None, Some(outcome.code), None)]);
    } else if outcome.Answered? {
      var session := outcome.status.Session();
      var changed := c.target.Some? && session.Some? && session != c.target && !c.changeNoted;
      var events := ReadEvents(session, changed);
      assert OnlyReads(events);
      OnlyReadsConcat(c.observed, events);
      hide ReadEvents, OnlyReads;
    }
  }

  lemma SameBinding(c: Cmd, n: Cmd)
    ensures c.expectation == n.expectation && c.args == n.args && c.target == n.target ==> BoundToTarget(c) == BoundToTarget(n)
  {
  }

  lemma ReadKeepsShape(c: Cmd, outcome: ReadOutcome, late: bool, now: nat)
    requires Shape(c) && c.phase == Verifying
    ensures Shape(AfterStatusRead(c, outcome, late, now)) && Extends(c, AfterStatusRead(c, outcome, late, now))
  {
    ReadKeepsParts(c, outcome, late, now);
    hide Cmd.Script, ArgsFit, BoundToTarget, AfterRead, Matches, OnlyReads, ReadEvents;
    ConfirmMeansMatch(c.expectation, c.seen, outcome, late);
    if TargetsSession(c.command) && AfterRead(c.expectation, c.seen, outcome, late).decision == Confirm {
      MatchOnTarget(c, outcome.status);
    }
    hide PartsInOrder;
    AnswerDecides(c.expectation, c.seen, if outcome.Answered? then outcome.status else DeviceStatus(Disconnected, None, None), late);
  }

  lemma ReadKeepsParts(c: Cmd, outcome: ReadOutcome, late: bool, now: nat)
    requires Shape(c) && c.phase == Verifying
    ensures PartsInOrder(AfterStatusRead(c, outcome, late, now)) && Extends(c, AfterStatusRead(c, outcome, late, now))
  {
    hide Cmd.Script, ArgsFit, BoundToTarget, AfterRead, OnlyReads, ReadEvents;
    ReadKeepsObserved(c, outcome, late, now);
    SameBinding(c, AfterStatusRead(c, outcome, late, now));
  }

  lemma ActionKeepsShape(c: Cmd, a: Action, now: nat)
    requires Shape(c) && CmdStep(c, a, now).Some?
    ensures Shape(CmdStep(c, a, now).value) && Extends(c, CmdStep(c, a, now).value) && c.phase != Finished
  {
    hide Cmd.Script, AfterRead, Matches, SeenAfter, OnlyReads;
    match a
    case Capture(status) =>
      CaptureKeepsShape(c, status);
    case ReadStatus(outcome, late) =>
      ReadKeepsShape(c, outcome, late, now);
    case _ =>
      OtherActionKeepsShape(c, a, now);
  }

  lemma OtherActionKeepsShape(c: Cmd, a: Action, now: nat)
    requires Shape(c) && CmdStep(c, a, now).Some? && !a.Capture? && !a.ReadStatus?
    ensures Shape(CmdStep(c, a, now).value) && Extends(c, CmdStep(c, a, now).value) && c.phase != Finished
  {
    OtherActionExtends(c, a, now);
    OtherActionFits(c, a, now);
    hide CmdStep, Shape, Extends;
  }

  lemma OtherActionExtends(c: Cmd, a: Action, now: nat)
    requires Shape(c) && CmdStep(c, a, now).Some? && !a.Capture? && !a.ReadStatus?
    ensures Extends(c, CmdStep(c, a, now).value) && c.phase != Finished
  {
    if SendsFirst(a) {
      SendActionExtends(c, a, now);
    } else {
      CheckActionExtends(c, a, now);
    }
    hide Shape, CmdStep, Extends, SendsFirst;
  }

  /** The actions up to the transport's return, but for the capture. */
  predicate SendsFirst(a: Action) {
    a.CaptureFails? || a.PreReadEscapes? || a.RefuseFixedVolume? || a.Announce? || a.EnterTransport? || a.TransportReturns?
  }

  lemma SendActionExtends(c: Cmd, a: Action, now: nat)
    requires Shape(c) && CmdStep(c, a, now).Some? && SendsFirst(a)
    ensures Extends(c, CmdStep(c, a, now).value) && c.phase != Finished
  {
    hide Cmd.Script, ArgsFit, ExpectedIdentity, Bind, BoundToTarget, OnlyReads, AfterCapture, AfterHold, AfterStatusRead;
  }

  lemma CheckActionExtends(c: Cmd, a: Action, now: nat)
    requires Shape(c) && CmdStep(c, a, now).Some? && !SendsFirst(a) && !a.Capture? && !a.ReadStatus?
    ensures Extends(c, CmdStep(c, a, now).value) && c.phase != Finished
  {
    hide Cmd.Script, ArgsFit, ExpectedIdentity, Bind, BoundToTarget, OnlyReads, AfterCapture, AfterReturn, AfterStatusRead;
  }

  lemma OtherActionFits(c: Cmd, a: Action, now: nat)
    requires Shape(c) && CmdStep(c, a, now).Some? && !a.Capture? && !a.ReadStatus?
    ensures Shape(CmdStep(c, a, now).value)
  {
    OtherActionParts(c, a, now);
    OtherActionPhase(c, a, now);
    hide CmdStep, PartsInOrder, PhaseFits;
  }

  lemma OtherActionParts(c: Cmd, a: Action, now: nat)
    requires Shape(c) && CmdStep(c, a, now).Some? && !a.Capture? && !a.ReadStatus?
    ensures PartsInOrder(CmdStep(c, a, now).value)
  {
    if SendsFirst(a) {
      SendActionParts(c, a, now);
    } else {
      CheckActionParts(c, a, now);
    }
    hide CmdStep, PartsInOrder, SendsFirst;
  }

  lemma SendActionParts(c: Cmd, a: Action, now: nat)
    requires Shape(c) && CmdStep(c, a, now).Some? && SendsFirst(a)
    ensures PartsInOrder(CmdStep(c, a, now).value)
  {
    hide Cmd.Script, ArgsFit, BoundToTarget, OnlyReads, AfterCapture, AfterHold, AfterStatusRead, EndingFits;
    var n := CmdStep(c, a, now).value;
    SameBinding(c, n);
    assert n.command == c.command && n.args == c.args && n.captured == c.captured && n.target == c.target;
    assert n.expectation == c.expectation && n.hold == c.hold && n.observed == c.observed;
    assert (n.sent && TargetsSession(c.command) ==> c.captured) && (c.answered ==> n.answered) && (n.answered ==> n.sent);
    hide CmdStep;
  }

  lemma CheckActionParts(c: Cmd, a: Action, now: nat)
    requires Shape(c) && CmdStep(c, a, now).Some? && !SendsFirst(a) && !a.Capture? && !a.ReadStatus?
    ensures PartsInOrder(CmdStep(c, a, now).value)
  {
    SameBinding(c, CmdStep(c, a, now).value);
    hide Cmd.Script, ArgsFit, BoundToTarget, OnlyReads, AfterCapture, AfterReturn, AfterStatusRead, EndingFits;
  }

  lemma OtherActionPhase(c: Cmd, a: Action, now: nat)
    requires Shape(c) && CmdStep(c, a, now).Some? && !a.Capture? && !a.ReadStatus?
    ensures PhaseFits(CmdStep(c, a, now).value)
  {
    hide Cmd.Script, ArgsFit, BoundToTarget, OnlyReads, AfterCapture, AfterStatusRead;
  }


  lemma ScriptEvents(c: Cmd)
    requires Shape(c)
    ensures forall k :: 0 <= k < |c.Script()| ==> c.Script()[k].event != TraceIncomplete
    ensures forall k :: 0 <= k < |c.Script()| && Terminal(c.Script()[k].event) ==>
              k == |c.Script()| - 1 && c.phase == Finished
    ensures c.phase == Finished ==> Terminal(c.Script()[|c.Script()| - 1].event)
  {
    var front := FrontEvents(c);
    assert c.Script() == front + c.EndEvents();
    FrontIsQuiet(c);
    EndIsLast(c);
    hide Cmd.Script, Cmd.EndEvents, FrontEvents, Shape, Terminal;
  }

  // The script without its end.
  function FrontEvents(c: Cmd): seq<Emission> {
    [Plain(CommandPrepared)] + c.PreEvents() + c.SendEvents() + c.AnswerEvents() + c.HoldEvents() + c.observed
  }

  lemma FrontIsQuiet(c: Cmd)
    requires Shape(c)
    ensures forall e :: e in FrontEvents(c) ==> e.event != TraceIncomplete && !Terminal(e.event)
  {
    hide ArgsFit, BoundToTarget, Cmd.EndEvents;
    forall e | e in FrontEvents(c) ensures e.event != TraceIncomplete && !Terminal(e.event) {
      assert e == Plain(CommandPrepared) || e in c.PreEvents() || e in c.SendEvents() || e in c.AnswerEvents()
             || e in c.HoldEvents() || e in c.observed;
      hide FrontEvents;
    }
  }

  lemma EndIsLast(c: Cmd)
    requires Shape(c)
    ensures var end := c.EndEvents();
            && (forall k :: 0 <= k < |end| ==> end[k].event != TraceIncomplete)
            && (forall k :: 0 <= k < |end| && Terminal(end[k].event) ==> k == |end| - 1 && c.phase == Finished)
            && (c.phase == Finished ==> end != [] && Terminal(end[|end| - 1].event))
  {
    hide ArgsFit, BoundToTarget, OnlyReads;
  }

  // ---------------------------------------------------------------- an observer's phases

  predicate WatchShape(o: Watch) {
    && (o.phase.Waiting? || o.phase.Found? ==> o.sight == Unseen && o.late == 0 && o.proof == NoProof)
    && (o.phase == Waiting ==> o.early == 0)
    && (o.phase == Watching ==> o.sight == SawCaptured && o.proof == NoProof)
    && (o.phase == Releasing ==> o.sight == SawCaptured && o.proof == SawChange && o.changed != o.session)
    && (o.proof.SentRelease? ==> o.phase == Done && o.sight == SawCaptured && o.changed != o.session)
    && (o.sight == Unseen ==> o.late == 0)
  }

  lemma WatchScriptEvents(o: Watch)
    ensures forall k :: 0 <= k < |o.Script()| ==> o.Script()[k].event != TraceIncomplete
  {
    forall e | e in o.Script() ensures e.event != TraceIncomplete {
      assert e in FailedReads(o.early) || e in o.SightEvents() || e in FailedReads(o.late) || e in o.ProofEvents();
    }
  }

  // ---------------------------------------------------------------- the stamped log

  function EmissionOf(e: TraceEvent): Emission {
    Emission(e.event, e.session, e.error, e.token)
  }

  /** The emissions a log records, without the recorder's own reports of a loss. */
  function Emitted(log: seq<TraceEvent>): seq<Emission> {
    if log == [] then []
    else
      var last := log[|log| - 1];
      Emitted(log[..|log| - 1]) + if last.event == TraceIncomplete then [] else [EmissionOf(last)]
  }

  /** Every stamped event of one request: contiguous index, growing sequence, one subject; the sink
      keeps some of them. */
  predicate LogOk(log: seq<TraceEvent>, file: seq<TraceEvent>, role: Role, subject: Subject, recorder: RecorderState) {
    && (forall k :: 0 <= k < |log| ==>
          && log[k].index == k && log[k].client == role && log[k].requestId == subject.requestId
          && log[k].command == subject.command && log[k].order == subject.order
          && log[k].sequence <= recorder.sequence)
    && (forall i, j :: 0 <= i < j < |log| ==> log[i].sequence < log[j].sequence)
    && recorder.NextIndex(subject.requestId) == |log|
    && (forall e :: e in file ==> e in log)
  }

  lemma EmittedAppend(log: seq<TraceEvent>, e: TraceEvent)
    ensures Emitted(log + [e]) == Emitted(log) + if e.event == TraceIncomplete then [] else [EmissionOf(e)]
  {
    assert (log + [e])[..|log|] == log;
  }

  lemma StampExtendsLog(
    log: seq<TraceEvent>, file: seq<TraceEvent>, role: Role, subject: Subject, recorder: RecorderState,
    e: Emission, written: bool)
    requires LogOk(log, file, role, subject, recorder)
    ensures var call := RecordOne(recorder, role, subject, e, written);
            LogOk(log + call.stamped, file + call.written, role, subject, call.state)
  {
    var event := Stamped(recorder, role, subject, e);
    var call := RecordOne(recorder, role, subject, e, written);
    assert call.state.sequence == recorder.sequence + 1;
    assert call.state.indexes == recorder.indexes[subject.requestId := |log| + 1];
    assert log + call.stamped == log + [event];
    assert forall x :: x in file + call.written ==> x in file || x == event;
  }

  lemma StampKeepsLog(
    log: seq<TraceEvent>, file: seq<TraceEvent>, role: Role, subject: Subject, recorder: RecorderState,
    e: Emission, written: bool)
    requires LogOk(log, file, role, subject, recorder)
    ensures var call := RecordOne(recorder, role, subject, e, written);
            && LogOk(log + call.stamped, file + call.written, role, subject, call.state)
            && Emitted(log + call.stamped) == Emitted(log) + if e.event == TraceIncomplete then [] else [e]
  {
    EmittedAppend(log, Stamped(recorder, role, subject, e));
    hide Emitted;
    StampExtendsLog(log, file, role, subject, recorder, e, written);
  }

  /** One `record` call keeps the request's log contiguous and in sequence, whatever is lost. */
  lemma RecordKeepsLog(
    log: seq<TraceEvent>, file: seq<TraceEvent>, role: Role, subject: Subject, recorder: RecorderState,
    e: Emission, wroteMarker: bool, wroteEvent: bool)
    requires LogOk(log, file, role, subject, recorder) && e.event != TraceIncomplete
    ensures var call := RecordCall(recorder, role, subject, e, wroteMarker, wroteEvent);
            && LogOk(log + call.stamped, file + call.written, role, subject, call.state)
            && Emitted(log + call.stamped) == Emitted(log) + [e]
            && call.stamped != [] && EmissionOf(call.stamped[|call.stamped| - 1]) == e
            && (forall k :: 0 <= k < |call.stamped| - 1 ==> call.stamped[k].event == TraceIncomplete)
  {
    hide LogOk, Emitted;
    if subject.requestId in recorder.incomplete {
      var first := RecordOne(recorder, role, subject, Plain(TraceIncomplete), wroteMarker);
      StampKeepsLog(log, file, role, subject, recorder, Plain(TraceIncomplete), wroteMarker);
      StampKeepsLog(log + first.stamped, file + first.written, role, subject, first.state, e, wroteEvent);
      var second := RecordOne(first.state, role, subject, e, wroteEvent);
      assert log + (first.stamped + second.stamped) == log + first.stamped + second.stamped;
      assert file + (first.written + second.written) == file + first.written + second.written;
    } else {
      StampKeepsLog(log, file, role, subject, recorder, e, wroteEvent);
    }
  }

  /** Recording one request leaves the log of every other request as it was. */
  lemma RecordKeepsOthers(
    log: seq<TraceEvent>, file: seq<TraceEvent>, role: Role, other: Subject, recorder: RecorderState,
    subject: Subject, e: Emission, wroteMarker: bool, wroteEvent: bool)
    requires LogOk(log, file, role, other, recorder) && other.requestId != subject.requestId
    ensures LogOk(log, file, role, other, RecordCall(recorder, role, subject, e, wroteMarker, wroteEvent).state)
  {
  }

  /** Without a reported loss, the log is the recorded script, event by event. */
  lemma {:induction false} EmittedWhole(log: seq<TraceEvent>)
    requires forall e :: e in log ==> e.event != TraceIncomplete
    ensures |Emitted(log)| == |log| && forall k :: 0 <= k < |log| ==> Emitted(log)[k] == EmissionOf(log[k])
  {
    if log != [] {
      EmittedWhole(log[..|log| - 1]);
    }
  }

  lemma {:induction false} EmittedEvent(log: seq<TraceEvent>, k: nat)
    requires k < |log| && log[k].event != TraceIncomplete
    ensures EmissionOf(log[k]) in Emitted(log)
  {
    if k < |log| - 1 {
      EmittedEvent(log[..|log| - 1], k);
    }
  }

  lemma {:induction false} EmittedFrom(log: seq<TraceEvent>, e: Emission)
    requires e in Emitted(log)
    ensures exists x :: x in log && x.event != TraceIncomplete && EmissionOf(x) == e
  {
    var front, last := log[..|log| - 1], log[|log| - 1];
    if e in Emitted(front) {
      EmittedFrom(front, e);
    } else {
      assert last in log && last.event != TraceIncomplete && EmissionOf(last) == e;
    }
  }

  /** The log of a command: a faithful prefix of its script, whose final outcome, if it is recorded,
      ends it. */
  predicate CmdLogged(c: Cmd, p: Process) {
    && c.recorded <= |c.Script()|
    && LogOk(c.log, c.file, p.role, c.Subject(), p.recorder)
    && Emitted(c.log) == c.Script()[..c.recorded]
    && (forall k :: 0 <= k < |c.log| && Terminal(c.log[k].event) ==>
          k == |c.log| - 1 && c.phase == Finished && c.Idle())
  }

  predicate WatchLogged(o: Watch, p: Process) {
    && p.role == ObserverRole
    && o.recorded <= |o.Script()|
    && LogOk(o.log, o.file, ObserverRole, o.Subject(), p.recorder)
    && Emitted(o.log) == o.Script()[..o.recorded]
    && (o.log == [] ==> p.recorder.indexes == map[])
    && (o.phase == Waiting ==> o.log == [])
  }

  /** An action only extends the script, so what is logged stays a faithful prefix of it. */
  lemma ActionKeepsLogged(c: Cmd, n: Cmd, p: Process)
    requires Shape(c) && CmdLogged(c, p) && Extends(c, n) && c.phase != Finished
    ensures CmdLogged(n, p)
  {
    ScriptGrows(c, n);
    assert n.Script()[..c.recorded] == c.Script()[..c.recorded];
    hide LogOk, Emitted, Shape;
  }

  lemma SliceOneMore(s: seq<Emission>, k: nat)
    requires k < |s|
    ensures s[..k + 1] == s[..k] + [s[k]]
  {
  }

  lemma SameScript(c: Cmd, recorded: nat, log: seq<TraceEvent>, file: seq<TraceEvent>)
    ensures c.(recorded := recorded, log := log, file := file).Script() == c.Script()
  {
    var n := c.(recorded := recorded, log := log, file := file);
    assert n.PreEvents() == c.PreEvents() && n.SendEvents() == c.SendEvents() && n.AnswerEvents() == c.AnswerEvents();
    assert n.HoldEvents() == c.HoldEvents() && n.EndEvents() == c.EndEvents();
  }

  lemma TerminalOnlyLast(log: seq<TraceEvent>, stamped: seq<TraceEvent>)
    requires forall k :: 0 <= k < |log| ==> !Terminal(log[k].event)
    requires forall k :: 0 <= k < |stamped| - 1 ==> stamped[k].event == TraceIncomplete
    ensures forall k :: 0 <= k < |log + stamped| - 1 ==> !Terminal((log + stamped)[k].event)
  {
  }

  // The command after one of its emissions was passed to the recorder.
  function Logging(c: Cmd, call: Recording): Cmd {
    c.(recorded := c.recorded + 1, log := c.log + call.stamped, file := c.file + call.written)
  }

  lemma RecordFollowsScript(c: Cmd, p: Process, wroteMarker: bool, wroteEvent: bool)
    requires Shape(c) && CmdLogged(c, p) && !c.Idle()
    ensures var call := RecordCall(p.recorder, p.role, c.Subject(), c.Script()[c.recorded], wroteMarker, wroteEvent);
            && LogOk(c.log + call.stamped, c.file + call.written, p.role, c.Subject(), call.state)
            && Emitted(c.log + call.stamped) == c.Script()[..c.recorded + 1]
            && call.stamped != [] && call.stamped[|call.stamped| - 1].event == c.Script()[c.recorded].event
            && (forall k :: 0 <= k < |c.log + call.stamped| - 1 ==> !Terminal((c.log + call.stamped)[k].event))
  {
    hide LogOk, Emitted, Shape, RecordCall, Cmd.Script, Terminal;
    ScriptEvents(c);
    var e := c.Script()[c.recorded];
    var call := RecordCall(p.recorder, p.role, c.Subject(), e, wroteMarker, wroteEvent);
    RecordKeepsLog(c.log, c.file, p.role, c.Subject(), p.recorder, e, wroteMarker, wroteEvent);
    SliceOneMore(c.Script(), c.recorded);
    TerminalOnlyLast(c.log, call.stamped);
  }

  lemma RecordKeepsLogged(c: Cmd, p: Process, wroteMarker: bool, wroteEvent: bool)
    requires Shape(c) && CmdLogged(c, p) && !c.Idle()
    ensures var call := RecordCall(p.recorder, p.role, c.Subject(), c.Script()[c.recorded], wroteMarker, wroteEvent);
            CmdLogged(Logging(c, call), p.(recorder := call.state))
  {
    hide LogOk, Emitted, Shape, RecordCall, Cmd.Script, Terminal;
    ScriptEvents(c);
    var call := RecordCall(p.recorder, p.role, c.Subject(), c.Script()[c.recorded], wroteMarker, wroteEvent);
    RecordFollowsScript(c, p, wroteMarker, wroteEvent);
    SameScript(c, c.recorded + 1, c.log + call.stamped, c.file + call.written);
  }

  lemma SameWatchScript(o: Watch, recorded: nat, log: seq<TraceEvent>, file: seq<TraceEvent>)
    ensures o.(recorded := recorded, log := log, file := file).Script() == o.Script()
  {
    var n := o.(recorded := recorded, log := log, file := file);
    assert n.SightEvents() == o.SightEvents() && n.ProofEvents() == o.ProofEvents();
  }

  lemma WaitingIsSilent(o: Watch)
    requires WatchShape(o)
    ensures o.phase == Waiting ==> o.Script() == []
  {
  }

  lemma RecordFollowsWatch(o: Watch, p: Process, wroteMarker: bool, wroteEvent: bool)
    requires WatchLogged(o, p) && o.recorded < |o.Script()|
    ensures var call := RecordCall(p.recorder, p.role, o.Subject(), o.Script()[o.recorded], wroteMarker, wroteEvent);
            && LogOk(o.log + call.stamped, o.file + call.written, p.role, o.Subject(), call.state)
            && Emitted(o.log + call.stamped) == o.Script()[..o.recorded + 1]
            && call.stamped != []
  {
    hide LogOk, Emitted, RecordCall, Watch.Script, EmissionOf;
    WatchScriptEvents(o);
    RecordKeepsLog(o.log, o.file, p.role, o.Subject(), p.recorder, o.Script()[o.recorded], wroteMarker, wroteEvent);
    SliceOneMore(o.Script(), o.recorded);
  }

  lemma RecordKeepsWatch(o: Watch, p: Process, wroteMarker: bool, wroteEvent: bool)
    requires WatchShape(o) && WatchLogged(o, p) && o.recorded < |o.Script()|
    ensures var call := RecordCall(p.recorder, p.role, o.Subject(), o.Script()[o.recorded], wroteMarker, wroteEvent);
            WatchLogged(o.(recorded := o.recorded + 1, log := o.log + call.stamped, file := o.file + call.written),
                        p.(recorder := call.state))
  {
    hide LogOk, Emitted, RecordCall, Watch.Script, EmissionOf;
    var e := o.Script()[o.recorded];
    var call := RecordCall(p.recorder, p.role, o.Subject(), e, wroteMarker, wroteEvent);
    WaitingIsSilent(o);
    RecordFollowsWatch(o, p, wroteMarker, wroteEvent);
    SameWatchScript(o, o.recorded + 1, o.log + call.stamped, o.file + call.written);
  }
}
