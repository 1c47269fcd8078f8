/** The shape of every command's trace, and what a C7 verdict says about the sends of a run. */
module SendEvidence {
  import opened Domain
  import opened Confirmation
  import opened CommandTrace
  import opened Evidence
  import opened AcceptanceRun
  import opened RunShape
  import opened RunInvariant
  import opened EvidenceTheorems

  // ---------------------------------------------------------------- logs and scripts

  lemma {:induction false} EmittedPrefix(log: seq<TraceEvent>, k: nat)
    requires k <= |log|
    ensures Emitted(log[..k]) <= Emitted(log)
  {
    if k < |log| {
      assert log[..|log| - 1][..k] == log[..k];
      EmittedPrefix(log[..|log| - 1], k);
    } else {
      assert log[..k] == log;
    }
  }

  // The emission of a log event stands in the script after everything stamped before it.
  lemma EmittedPosition(log: seq<TraceEvent>, k: nat)
    requires k < |log| && log[k].event != TraceIncomplete
    ensures |Emitted(log[..k])| < |Emitted(log)| && Emitted(log)[|Emitted(log[..k])|] == EmissionOf(log[k])
    ensures Emitted(log[..k]) <= Emitted(log)
  {
    EmittedPrefix(log, k);
    EmittedPrefix(log, k + 1);
    assert log[..k + 1] == log[..k] + [log[k]];
    EmittedAppend(log[..k], log[k]);
  }

  lemma EmittedGrows(log: seq<TraceEvent>, i: nat, j: nat)
    requires i < j <= |log| && log[i].event != TraceIncomplete
    ensures |Emitted(log[..i])| < |Emitted(log[..j])|
  {
    assert log[..j][..i] == log[..i];
    EmittedPosition(log[..j], i);
    hide Emitted;
  }

  // Where the reads begin in a command's script.
  function ReadsFrom(c: Cmd): nat { 1 + |c.PreEvents()| + |c.SendEvents()| + |c.AnswerEvents()| + |c.HoldEvents()| }

  lemma ReadEventAt(c: Cmd, k: nat)
    requires PartsInOrder(c) && ReadsFrom(c) <= k < ReadsFrom(c) + |c.observed|
    ensures k < |c.Script()| && ReadEvent(c.Script()[k].event) && c.answered
  {
    var a := ReadsFrom(c);
    assert c.Script()[k] == c.observed[k - a] && c.observed[k - a] in c.observed;
  }

  lemma SendsInOrder(c: Cmd, k: nat)
    requires Shape(c) && k < |c.Script()|
    ensures c.Script()[k].event == SendAttempt ==> k == 1 + |c.PreEvents()|
    ensures c.Script()[k].event == TransportResponse ==>
              c.sent && 1 + |c.PreEvents()| < k && c.Script()[1 + |c.PreEvents()|].event == SendAttempt
  {
    SentOnce(c, k);
    AnsweredAfterSend(c, k);
    hide Cmd.Script, Cmd.PreEvents, Shape;
  }

  lemma SentOnce(c: Cmd, k: nat)
    requires Shape(c) && k < |c.Script()|
    ensures c.Script()[k].event == SendAttempt ==> k == 1 + |c.PreEvents()|
  {
    hide ArgsFit, BoundToTarget, OnlyReads;
    if ReadsFrom(c) <= k < ReadsFrom(c) + |c.observed| {
      ReadEventAt(c, k);
    }
  }

  lemma AnsweredAfterSend(c: Cmd, k: nat)
    requires Shape(c) && k < |c.Script()|
    ensures c.Script()[k].event == TransportResponse ==>
              c.sent && 1 + |c.PreEvents()| < k && c.Script()[1 + |c.PreEvents()|].event == SendAttempt
  {
    hide ArgsFit, BoundToTarget, OnlyReads;
    if ReadsFrom(c) <= k < ReadsFrom(c) + |c.observed| {
      ReadEventAt(c, k);
    }
  }

  lemma ReadsInOrder(c: Cmd, k: nat)
    requires Shape(c) && k < |c.Script()|
    ensures c.Script()[k].event == ConfirmationStatus ==>
              c.answered && 2 + |c.PreEvents()| < k && c.Script()[2 + |c.PreEvents()|].event == TransportResponse
  {
    hide ArgsFit, BoundToTarget, OnlyReads;
    if ReadsFrom(c) <= k < ReadsFrom(c) + |c.observed| {
      ReadEventAt(c, k);
    }
  }

  /** Where the send, the answer and the reads stand in a command's script. */
  lemma ScriptOrder(c: Cmd, k: nat)
    requires Shape(c) && k < |c.Script()|
    ensures c.Script()[k].event == SendAttempt ==> k == 1 + |c.PreEvents()|
    ensures c.Script()[k].event == TransportResponse ==>
              c.sent && 1 + |c.PreEvents()| < k && c.Script()[1 + |c.PreEvents()|].event == SendAttempt
    ensures c.Script()[k].event == ConfirmationStatus ==>
              c.answered && 2 + |c.PreEvents()| < k && c.Script()[2 + |c.PreEvents()|].event == TransportResponse
  {
    SendsInOrder(c, k);
    ReadsInOrder(c, k);
  }

  // ---------------------------------------------------------------- the trace of one command

  /** What holds of a command's stamped trace at every moment of every run. */
  predicate WellTraced(trace: seq<TraceEvent>) {
    && Contiguous(trace) && SequenceGrows(trace)
    && (forall i, j :: 0 <= i < |trace| && 0 <= j < |trace| && trace[i].event == SendAttempt && trace[j].event == SendAttempt
          ==> i == j)
    && (forall k :: 0 <= k < |trace| && trace[k].event == ConfirmationStatus ==>
          exists j :: 0 <= j < k && trace[j].event == TransportResponse)
    && (forall k :: 0 <= k < |trace| && trace[k].event == TransportResponse ==>
          exists j :: 0 <= j < k && trace[j].event == SendAttempt)
    && (forall k :: 0 <= k < |trace| && Terminal(trace[k].event) ==> k == |trace| - 1)
  }

  lemma OneSend(c: Cmd, p: Process, i: nat, j: nat)
    requires Shape(c) && CmdLogged(c, p) && i < |c.log| && j < |c.log|
    requires c.log[i].event == SendAttempt && c.log[j].event == SendAttempt
    ensures i == j
  {
    EmittedPosition(c.log, i);
    EmittedPosition(c.log, j);
    var a, b := |Emitted(c.log[..i])|, |Emitted(c.log[..j])|;
    assert c.Script()[a].event == SendAttempt && c.Script()[b].event == SendAttempt;
    ScriptOrder(c, a);
    ScriptOrder(c, b);
    hide Cmd.Script, Shape, Emitted, LogOk;
    if i < j { EmittedGrows(c.log, i, j); }
    if j < i { EmittedGrows(c.log, j, i); }
  }

  // An emission earlier in the script was stamped earlier.
  lemma StampedBefore(c: Cmd, p: Process, k: nat, q: nat, name: EventName)
    requires CmdLogged(c, p) && k < |c.log| && c.log[k].event != TraceIncomplete
    requires q < |Emitted(c.log[..k])| && q < |c.Script()| && c.Script()[q].event == name
    ensures exists j :: 0 <= j < k && c.log[j].event == name
  {
    hide Cmd.Script, Emitted, LogOk;
    EmittedPosition(c.log, k);
    var front := c.log[..k];
    assert Emitted(front)[q] == c.Script()[q];
    EmittedFrom(front, c.Script()[q]);
    var x :| x in front && x.event != TraceIncomplete && EmissionOf(x) == c.Script()[q];
    var j :| 0 <= j < |front| && front[j] == x;
    assert c.log[j].event == name;
  }

  lemma AfterItsCause(c: Cmd, p: Process, k: nat)
    requires Shape(c) && CmdLogged(c, p) && k < |c.log|
    ensures c.log[k].event == ConfirmationStatus ==> exists j :: 0 <= j < k && c.log[j].event == TransportResponse
    ensures c.log[k].event == TransportResponse ==> exists j :: 0 <= j < k && c.log[j].event == SendAttempt
  {
    if c.log[k].event == ConfirmationStatus || c.log[k].event == TransportResponse {
      EmittedPosition(c.log, k);
      var q := |Emitted(c.log[..k])|;
      assert c.Script()[q].event == c.log[k].event;
      ScriptOrder(c, q);
      hide Cmd.Script, Emitted, LogOk, Shape;
      if c.log[k].event == ConfirmationStatus {
        StampedBefore(c, p, k, 2 + |c.PreEvents()|, TransportResponse);
      } else {
        StampedBefore(c, p, k, 1 + |c.PreEvents()|, SendAttempt);
      }
    }
  }

  lemma LogWellTraced(c: Cmd, p: Process)
    requires Shape(c) && CmdLogged(c, p)
    ensures WellTraced(c.log)
  {
    LogIsContiguous(c, p);
    forall i, j | 0 <= i < |c.log| && 0 <= j < |c.log| && c.log[i].event == SendAttempt && c.log[j].event == SendAttempt
      ensures i == j
    {
      OneSend(c, p, i, j);
    }
    forall k | 0 <= k < |c.log|
      ensures c.log[k].event == ConfirmationStatus ==> exists j :: 0 <= j < k && c.log[j].event == TransportResponse
      ensures c.log[k].event == TransportResponse ==> exists j :: 0 <= j < k && c.log[j].event == SendAttempt
    {
      AfterItsCause(c, p, k);
    }
    hide Shape, LogOk, Emitted, Cmd.Script, Contiguous, SequenceGrows;
  }

  lemma FinishedEndsInOutcome(c: Cmd, p: Process)
    requires Shape(c) && CmdLogged(c, p) && c.Idle()
    ensures c.phase == Finished ==> c.log != [] && Terminal(c.log[|c.log| - 1].event)
    ensures c.phase != Finished ==> forall e :: e in c.log ==> !Terminal(e.event)
  {
    hide Emitted, Cmd.Script, Shape, LogOk, Terminal;
    ScriptEvents(c);
    if c.phase == Finished {
      ScriptIsNotEmpty(c);
      var e := c.Script()[|c.Script()| - 1];
      assert e in c.Script()[..c.recorded];
      EmittedFrom(c.log, e);
      var x :| x in c.log && EmissionOf(x) == e;
      var k :| 0 <= k < |c.log| && c.log[k] == x;
    }
  }

  lemma ScriptIsNotEmpty(c: Cmd)
    ensures c.Script() != []
  {
  }

  /** Trace shape: in every run, whatever was interleaved and lost, each command's stamped trace has
      indexes 0..n-1 in growing sequence, at most one send, its reads after the answer, and nothing
      after an outcome; a finished, recorded command ends in exactly one outcome, and a command that
      an unexpected exception left has none. */
  lemma TraceShape(tv: DeviceStatus, steps: seq<Step>, r: RequestId)
    requires tv.Consistent() && r in Run(tv, steps).commands
    ensures var c := Run(tv, steps).commands[r];
            && WellTraced(c.log)
            && (c.Idle() && c.phase == Finished ==> c.log != [] && Terminal(c.log[|c.log| - 1].event))
            && (c.Idle() && c.phase == Escaped ==> forall e :: e in c.log ==> !Terminal(e.event))
  {
    hide Run, Inv, Shape, CmdLogged, WellTraced, Cmd.Script;
    RunKeepsInv(tv, steps);
    var w := Run(tv, steps);
    CommandFacts(w, r);
    var c := w.commands[r];
    LogWellTraced(c, w.processes[c.process]);
    if c.Idle() {
      FinishedEndsInOutcome(c, w.processes[c.process]);
    }
  }

  // ---------------------------------------------------------------- a lossless sink

  /** Every write of the step's `record` call succeeds. */
  predicate Writes(s: Step) {
    (s.RecordCommand? ==> s.wroteMarker && s.wroteEvent) && (s.RecordWatch? ==> s.wroteMarker && s.wroteEvent)
  }

  /** Nothing is pending as lost, and every sink holds its command's whole log. */
  predicate NoLoss(w: World) {
    && (forall p :: p in w.processes ==> w.processes[p].recorder.incomplete == {})
    && (forall r :: r in w.commands ==> w.commands[r].file == w.commands[r].log && NothingLost(w.commands[r].log))
    && (forall id :: id in w.watches ==> w.watches[id].file == w.watches[id].log && NothingLost(w.watches[id].log))
  }

  lemma RecordLosesNothing(s: RecorderState, role: Role, subject: Subject, e: Emission)
    requires s.incomplete == {} && e.event != TraceIncomplete
    ensures var call := RecordCall(s, role, subject, e, true, true);
            && call.state.incomplete == {} && call.written == call.stamped && NothingLost(call.stamped)
  {
  }

  lemma RecordKeepsNoLoss(w: World, r: RequestId)
    requires Inv(w) && NoLoss(w)
    ensures NoLoss(DoRecord(w, r, true, true))
  {
    hide Inv, Cmd.Script, RecordCall, Shape, CmdLogged, Cmd.Subject, Terminal;
    if DoRecord(w, r, true, true) != w {
      CommandFacts(w, r);
      var c := w.commands[r];
      ScriptEvents(c);
      assert c.recorded < |c.Script()|;
      RecordLosesNothing(w.processes[c.process].recorder, w.processes[c.process].role, c.Subject(), c.Script()[c.recorded]);
    }
  }

  lemma RecordWatchKeepsNoLoss(w: World, o: nat)
    requires NoLoss(w)
    ensures NoLoss(DoRecordWatch(w, o, true, true))
  {
    hide Watch.Script, RecordCall;
    if DoRecordWatch(w, o, true, true) != w {
      var watch := w.watches[o];
      WatchScriptEvents(watch);
      RecordLosesNothing(w.processes[o].recorder, w.processes[o].role, watch.Subject(), watch.Script()[watch.recorded]);
    }
  }

  lemma ActKeepsNoLoss(w: World, r: RequestId, a: Action)
    requires Inv(w) && NoLoss(w)
    ensures NoLoss(DoAct(w, r, a))
  {
    hide Inv, Cmd.Script, CmdStep, Shape, CmdLogged, Agrees, Witnessed, HeldAfter, ReleasesAfter;
    if DoAct(w, r, a) != w {
      CommandFacts(w, r);
      ActionKeepsShape(w.commands[r], a, |w.timeline|);
    }
  }

  lemma StartKeepsNoLoss(w: World, s: Step)
    requires NoLoss(w) && (s.TvChanges? || s.StartRemote? || s.StartObserver? || s.Prepare?)
    ensures NoLoss(Do(w, s))
  {
    hide DoAct, DoRecord, DoRecordWatch, DoWatch, Cmd.Script, Watch.Script, ArgsFit;
  }

  lemma WatchKeepsNoLoss(w: World, s: Step)
    requires NoLoss(w) && WatchStep(s)
    ensures NoLoss(DoWatch(w, s))
  {
    hide DoWatch, NothingLost;
    WatchKeepsLogs(w, s);
  }

  // Only what the observers did changed, not what they recorded.
  predicate LogsKept(w: World, n: World) {
    && n.processes == w.processes && n.commands == w.commands && n.watches.Keys == w.watches.Keys
    && forall id :: id in w.watches ==> n.watches[id].log == w.watches[id].log && n.watches[id].file == w.watches[id].file
  }

  lemma WatchKeepsLogs(w: World, s: Step)
    requires WatchStep(s)
    ensures LogsKept(w, DoWatch(w, s))
  {
    hide DoWatch, Watch.Idle;
    if DoWatch(w, s) != w {
      DoWatchFrame(w, s);
    }
  }

  lemma StepKeepsNoLoss(w: World, s: Step)
    requires Inv(w) && NoLoss(w) && Writes(s)
    ensures NoLoss(Do(w, s))
  {
    hide Inv, NoLoss, DoRecord, DoRecordWatch, DoAct, DoWatch;
    match s
    case Act(r, a) => ActKeepsNoLoss(w, r, a);
    case RecordCommand(r, _, _) => RecordKeepsNoLoss(w, r);
    case RecordWatch(o, _, _) => RecordWatchKeepsNoLoss(w, o);
    case TvChanges(_) => StartKeepsNoLoss(w, s);
    case StartRemote(_, _) => StartKeepsNoLoss(w, s);
    case StartObserver(_, _) => StartKeepsNoLoss(w, s);
    case Prepare(_, _, _, _, _, _, _) => StartKeepsNoLoss(w, s);
    case _ => WatchKeepsNoLoss(w, s);
  }

  lemma {:induction false} RunKeepsNoLoss(tv: DeviceStatus, steps: seq<Step>)
    requires tv.Consistent() && forall s :: s in steps ==> Writes(s)
    ensures NoLoss(Run(tv, steps))
  {
    if steps != [] {
      var front := steps[..|steps| - 1];
      RunKeepsNoLoss(tv, front);
      RunKeepsInv(tv, front);
      hide Inv, Do, NoLoss;
      StepKeepsNoLoss(Run(tv, front), steps[|steps| - 1]);
    }
  }

  /** With a lossless sink the trace file of a command is, event by event, what the command did. */
  lemma LosslessTrace(tv: DeviceStatus, steps: seq<Step>, r: RequestId)
    requires tv.Consistent() && r in Run(tv, steps).commands
    requires forall s :: s in steps ==> Writes(s)
    ensures var c := Run(tv, steps).commands[r];
            && c.recorded <= |c.Script()| && Faithful(c.file, c.Script()[..c.recorded]) && WellTraced(c.file)
  {
    hide Run, Inv, NoLoss, Faithful, WellTraced, Cmd.Script;
    RunKeepsInv(tv, steps);
    RunKeepsNoLoss(tv, steps);
    LosslessTraceIn(Run(tv, steps), r);
  }

  lemma LosslessTraceIn(w: World, r: RequestId)
    requires Inv(w) && NoLoss(w) && r in w.commands
    ensures var c := w.commands[r];
            && c.recorded <= |c.Script()| && Faithful(c.file, c.Script()[..c.recorded]) && WellTraced(c.file)
  {
    hide Inv, Shape, WellTraced, Cmd.Script;
    CommandFacts(w, r);
    LogWellTraced(w.commands[r], w.processes[w.commands[r].process]);
    EmittedWhole(w.commands[r].log);
    hide LogOk, Emitted;
  }

  // ---------------------------------------------------------------- C7

  lemma {:induction false} SendsExact(events: seq<TraceEvent>, order: OrderId, e: TraceEvent)
    ensures multiset(SendsOf(events, order))[e] == if IsSendOf(e, order) then multiset(events)[e] else 0
  {
    if events != [] {
      var front, last := events[..|events| - 1], events[|events| - 1];
      assert events == front + [last];
      SendsExact(front, order, e);
    }
  }

  lemma TwoIsNotOne(s: seq<TraceEvent>, a: TraceEvent, b: TraceEvent)
    requires a in s && b in s && a != b
    ensures |s| != 1
  {
  }

  /** C7 passes exactly on a complete stream with one send, no answer and an ambiguous outcome, whose
      send is the only one loaded for its application request. */
  lemma C7Passes(loaded: seq<TraceEvent>, r: RequestId)
    ensures ClassifyC7(loaded, r) == Pass <==>
              && Acting(loaded, r).Ok?
              && var acting := Acting(loaded, r).value;
                 && Count(acting, {SendAttempt}) == 1
                 && OrderOf(acting).Some? && |SendsOf(loaded, OrderOf(acting).value)| == 1
                 && !Has(acting, AutomaticRetry) && !Has(acting, Replay)
                 && acting != [] && acting[|acting| - 1].event == AmbiguousResult
                 && !Has(acting, TransportResponse)
  {
    hide Acting, Count, OrderOf, SendsOf, Has;
  }

  lemma RemoteEventInActing(loaded: seq<TraceEvent>, r: RequestId, e: TraceEvent)
    requires Acting(loaded, r).Ok? && e in loaded && e.requestId == r && Remote(e.client)
    ensures e in Acting(loaded, r).value
  {
    StreamMembers(loaded, r, Ubuntu);
    StreamMembers(loaded, r, Android);
    hide Stream, IntegrityProblem, CommandsOf;
  }

  /** When two invocations of one application request have both sent, neither passes C7. */
  lemma TwoSendsNeitherPasses(loaded: seq<TraceEvent>, order: OrderId, a: TraceEvent, b: TraceEvent)
    requires a in loaded && b in loaded && a.requestId != b.requestId
    requires IsSendOf(a, order) && IsSendOf(b, order)
    ensures ClassifyC7(loaded, a.requestId) != Pass && ClassifyC7(loaded, b.requestId) != Pass
  {
    SendBlocksOther(loaded, order, a, b);
    SendBlocksOther(loaded, order, b, a);
  }

  lemma SendBlocksOther(loaded: seq<TraceEvent>, order: OrderId, a: TraceEvent, b: TraceEvent)
    requires a in loaded && b in loaded && a.requestId != b.requestId
    requires IsSendOf(a, order) && IsSendOf(b, order)
    ensures ClassifyC7(loaded, a.requestId) != Pass
  {
    C7Passes(loaded, a.requestId);
    SendsExact(loaded, order, a);
    SendsExact(loaded, order, b);
    TwoIsNotOne(SendsOf(loaded, order), a, b);
    hide ClassifyC7, SendsOf, Acting, Has, Count;
    if Acting(loaded, a.requestId).Ok? {
      RemoteEventInActing(loaded, a.requestId, a);
    }
  }

  /** The transport call may have reached the TV, and no control error denies it. */
  predicate EndedAmbiguously(c: Cmd) {
    c.ending.AtSend? && (c.ending.outcome.Crashed?
      || (c.ending.outcome.Refused? && !c.ending.outcome.notSent && c.ending.outcome.code != CommandRejected))
  }

  predicate HasSent(c: Cmd) { Has(c.log, SendAttempt) }

  /** No other invocation of the command's application request has a recorded send. */
  predicate OnlySend(w: World, r: RequestId)
    requires r in w.commands
  {
    forall other :: other in w.commands && other != r && w.commands[other].order == w.commands[r].order ==>
      !HasSent(w.commands[other])
  }

  /** Every event a remote stamped, loaded once, and no other remote event. */
  ghost predicate AllRemotesLoaded(w: World, loaded: seq<TraceEvent>) {
    forall e: TraceEvent :: Remote(e.client) ==>
      multiset(loaded)[e] == if e.requestId in w.commands && e in w.commands[e.requestId].log then 1 else 0
  }

  lemma Distinct(log: seq<TraceEvent>, e: TraceEvent)
    requires Contiguous(log)
    ensures multiset(log)[e] == if e in log then 1 else 0
  {
    if e in log {
      var k :| 0 <= k < |log| && log[k] == e;
      assert log == log[..k] + [log[k]] + log[k + 1..];
      assert e !in log[..k] && e !in log[k + 1..];
    }
  }

  lemma LoadedIsLog(w: World, loaded: seq<TraceEvent>, r: RequestId, role: Role)
    requires Inv(w) && r in w.commands && AllRemotesLoaded(w, loaded)
    requires w.commands[r].process in w.processes && role == w.processes[w.commands[r].process].role
    ensures multiset(Select(loaded, r, role)) == multiset(w.commands[r].log)
    ensures Remote(role) && Select(loaded, r, if role == Ubuntu then Android else Ubuntu) == []
  {
    hide Inv, Shape, CmdLogged, CmdHistory, TokenOk, Select, SequenceGrows, Contiguous;
    CommandFacts(w, r);
    var c := w.commands[r];
    LogIsContiguous(c, w.processes[c.process]);
    hide Cmd.Script, Terminal;
    SelectedIsLog(w, loaded, r, role, c.log);
    NothingElseSelected(w, loaded, r, if role == Ubuntu then Android else Ubuntu, role, c.log);
  }

  lemma SelectedIsLog(w: World, loaded: seq<TraceEvent>, r: RequestId, role: Role, log: seq<TraceEvent>)
    requires AllRemotesLoaded(w, loaded) && r in w.commands && log == w.commands[r].log && Contiguous(log) && Remote(role)
    requires forall e :: e in log ==> e.client == role && e.requestId == r
    ensures multiset(Select(loaded, r, role)) == multiset(log)
  {
    hide Select, Contiguous;
    forall e ensures multiset(Select(loaded, r, role))[e] == multiset(log)[e] {
      SelectIsExact(loaded, r, role, e);
      Distinct(log, e);
    }
  }

  lemma NothingElseSelected(w: World, loaded: seq<TraceEvent>, r: RequestId, wrong: Role, role: Role, log: seq<TraceEvent>)
    requires AllRemotesLoaded(w, loaded) && r in w.commands && log == w.commands[r].log && Remote(wrong) && wrong != role
    requires forall e :: e in log ==> e.client == role && e.requestId == r
    ensures Select(loaded, r, wrong) == []
  {
    hide Select;
    forall e ensures multiset(Select(loaded, r, wrong))[e] == 0 {
      SelectIsExact(loaded, r, wrong, e);
    }
    assert multiset(Select(loaded, r, wrong)) == multiset{};
    assert |Select(loaded, r, wrong)| == |multiset(Select(loaded, r, wrong))|;
  }

  lemma {:induction false} CountOne(stream: seq<TraceEvent>, name: EventName, k: nat)
    requires k < |stream| && stream[k].event == name
    requires forall j :: 0 <= j < |stream| && stream[j].event == name ==> j == k
    ensures Count(stream, {name}) == 1
  {
    var front, last := stream[..|stream| - 1], stream[|stream| - 1];
    if k == |front| {
      CountZero(front, {name});
    } else {
      CountOne(front, name, k);
    }
  }

  lemma SingleSend(sends: seq<TraceEvent>, s: TraceEvent)
    requires multiset(sends)[s] == 1 && forall e :: e in sends ==> e == s
    ensures |sends| == 1
  {
    forall e ensures multiset(sends)[e] == multiset{s}[e] {
      assert e in sends <==> multiset(sends)[e] > 0;
    }
    assert multiset(sends) == multiset{s};
    assert |sends| == |multiset(sends)|;
  }

  lemma OrderOfLog(c: Cmd, p: Process)
    requires CmdLogged(c, p) && c.log != []
    ensures OrderOf(c.log) == c.order
  {
    LogIsContiguous(c, p);
    assert c.log[0] in c.log;
    hide CmdLogged, Contiguous, SequenceGrows;
  }

  /** An ambiguous ending, as its trace shows it. */
  lemma AmbiguousTrace(c: Cmd, log: seq<TraceEvent>)
    requires Shape(c) && Faithful(log, c.Script()) && c.phase == Finished
    ensures log != [] && (EndedAmbiguously(c) <==> log[|log| - 1].event == AmbiguousResult)
    ensures EndedAmbiguously(c) ==> !Has(log, TransportResponse) && Has(log, SendAttempt)
    ensures !Has(log, AutomaticRetry) && !Has(log, Replay)
  {
    hide Shape, Cmd.Script, Has, Terminal, EndedAmbiguously;
    var script := c.Script();
    ScriptEvents(c);
    ScriptIsNotEmpty(c);
    assert log != [] && EmissionOf(log[|log| - 1]) == script[|script| - 1];
    forall e | e in script
      ensures e.event != AutomaticRetry && e.event != Replay && (e.event == TransportResponse ==> c.answered)
    {
      EventOrigin(c, e);
    }
    AmbiguousEnd(c);
    if c.sent {
      SentIsLogged(c, log);
    }
    HasNot(log, script, AutomaticRetry);
    HasNot(log, script, Replay);
    if EndedAmbiguously(c) {
      HasNot(log, script, TransportResponse);
    }
    hide Faithful;
  }

  lemma AmbiguousEnd(c: Cmd)
    requires Shape(c) && c.phase == Finished
    ensures EndedAmbiguously(c) <==> c.Script()[|c.Script()| - 1].event == AmbiguousResult
    ensures EndedAmbiguously(c) ==> c.sent && !c.answered
  {
    hide ArgsFit, BoundToTarget, OnlyReads;
  }

  lemma SentIsLogged(c: Cmd, log: seq<TraceEvent>)
    requires Faithful(log, c.Script()) && c.sent
    ensures Has(log, SendAttempt)
  {
    var k := 1 + |c.PreEvents()|;
    assert c.Script()[k] == OnSession(SendAttempt, c.target);
    assert EmissionOf(log[k]) == c.Script()[k] && log[k] in log;
  }

  /** The complete stream of one command, each event loaded once, in any order and among any others. */
  predicate OwnStreamLoaded(w: World, loaded: seq<TraceEvent>, r: RequestId)
    requires r in w.commands && w.commands[r].process in w.processes
  {
    var role := w.processes[w.commands[r].process].role;
    && multiset(Select(loaded, r, role)) == multiset(w.commands[r].log)
    && Select(loaded, r, if role == Ubuntu then Android else Ubuntu) == []
  }

  /** Every loaded send of the application request is this invocation's. */
  predicate OnlySendLoaded(loaded: seq<TraceEvent>, r: RequestId, order: OrderId) {
    forall e :: e in loaded && IsSendOf(e, order) ==> e.requestId == r
  }

  // A loaded event of the command is one of its log, there exactly once.
  lemma OwnEventLoaded(w: World, loaded: seq<TraceEvent>, r: RequestId, e: TraceEvent)
    requires Inv(w) && r in w.commands && w.commands[r].process in w.processes && OwnStreamLoaded(w, loaded, r)
    requires e.requestId == r && Remote(e.client)
    ensures multiset(loaded)[e] == if e in w.commands[r].log then 1 else 0
  {
    CommandFacts(w, r);
    var c := w.commands[r];
    LogIsContiguous(c, w.processes[c.process]);
    hide Inv, Shape, CmdLogged, CmdHistory, TokenOk, Select, SequenceGrows, Contiguous, Cmd.Script, Terminal;
    SelectIsExact(loaded, r, e.client, e);
    Distinct(c.log, e);
  }

  /** One send is counted for the application request if and only if no other invocation's is loaded. */
  lemma LoadedSendCounted(w: World, loaded: seq<TraceEvent>, r: RequestId, order: OrderId, s: TraceEvent)
    requires Inv(w) && r in w.commands && w.commands[r].process in w.processes && OwnStreamLoaded(w, loaded, r)
    requires s in w.commands[r].log && s.event == SendAttempt && w.commands[r].order == Some(order)
    ensures |SendsOf(loaded, order)| == 1 <==> OnlySendLoaded(loaded, r, order)
  {
    hide SendsOf, Inv, OwnStreamLoaded;
    var sends := SendsOf(loaded, order);
    forall e ensures e in sends <==> IsSendOf(e, order) && e in loaded {
      SendsExact(loaded, order, e);
      assert e in sends <==> multiset(sends)[e] > 0;
    }
    LogSubject(w, r, s);
    OwnEventLoaded(w, loaded, r, s);
    SendsExact(loaded, order, s);
    assert multiset(sends)[s] == 1;
    if OnlySendLoaded(loaded, r, order) {
      forall e | e in sends ensures e == s {
        OwnEventLoaded(w, loaded, r, e);
        SameSend(w, r, e, s);
      }
      SingleSend(sends, s);
    } else {
      var e :| e in loaded && IsSendOf(e, order) && e.requestId != r;
      TwoIsNotOne(sends, s, e);
    }
  }

  lemma LogSubject(w: World, r: RequestId, e: TraceEvent)
    requires Inv(w) && r in w.commands && e in w.commands[r].log
    ensures e.requestId == r && Remote(e.client) && e.order == w.commands[r].order
  {
    CommandFacts(w, r);
    LogIsContiguous(w.commands[r], w.processes[w.commands[r].process]);
    hide Inv, Shape, CmdLogged, CmdHistory, TokenOk, Contiguous, SequenceGrows;
  }

  lemma SameSend(w: World, r: RequestId, a: TraceEvent, b: TraceEvent)
    requires Inv(w) && r in w.commands && a in w.commands[r].log && b in w.commands[r].log
    requires a.event == SendAttempt && b.event == SendAttempt
    ensures a == b
  {
    hide Inv, Shape, CmdLogged;
    CommandFacts(w, r);
    var log := w.commands[r].log;
    var i :| 0 <= i < |log| && log[i] == a;
    var j :| 0 <= j < |log| && log[j] == b;
    OneSend(w.commands[r], w.processes[w.commands[r].process], i, j);
  }

  lemma OneSendCounted(w: World, r: RequestId, s: TraceEvent)
    requires Inv(w) && r in w.commands && s in w.commands[r].log && s.event == SendAttempt
    ensures Count(w.commands[r].log, {SendAttempt}) == 1
  {
    hide Inv, Shape, CmdLogged, Count;
    var log := w.commands[r].log;
    CommandFacts(w, r);
    var k :| 0 <= k < |log| && log[k] == s;
    forall j | 0 <= j < |log| && log[j].event == SendAttempt ensures j == k {
      OneSend(w.commands[r], w.processes[w.commands[r].process], j, k);
    }
    CountOne(log, SendAttempt, k);
  }

  lemma C7ExactlyWhenIn(w: World, loaded: seq<TraceEvent>, r: RequestId)
    requires Inv(w) && r in w.commands && w.commands[r].process in w.processes && OwnStreamLoaded(w, loaded, r)
    requires w.commands[r].phase == Finished && w.commands[r].Idle() && NothingLost(w.commands[r].log)
    ensures var c := w.commands[r];
            ClassifyC7(loaded, r) == Pass <==>
              EndedAmbiguously(c) && c.order.Some? && OnlySendLoaded(loaded, r, c.order.value)
  {
    hide ClassifyC7, Inv, Acting, OnlySendLoaded, Shape, CmdLogged, Faithful, Cmd.Script, Has, Count, OrderOf, SendsOf,
         EndedAmbiguously, Select, CmdHistory, TokenOk;
    var c := w.commands[r];
    CommandFacts(w, r);
    CompleteIsActing(w, loaded, r, c, w.processes[c.process]);
    C7Passes(loaded, r);
    AmbiguousTrace(c, c.log);
    OrderOfLog(c, w.processes[c.process]);
    if EndedAmbiguously(c) {
      var s := TheSend(c.log);
      OneSendCounted(w, r, s);
      if c.order.Some? {
        LoadedSendCounted(w, loaded, r, c.order.value, s);
      }
    }
  }

  lemma TheSend(log: seq<TraceEvent>) returns (s: TraceEvent)
    requires Has(log, SendAttempt)
    ensures s in log && s.event == SendAttempt
  {
    s :| s in log && s.event == SendAttempt;
  }

  /** The command ended, recorded its outcome, and all of its trace is loaded, each event once. */
  predicate WholeTraceLoaded(w: World, loaded: seq<TraceEvent>, r: RequestId)
    requires r in w.commands
  {
    var c := w.commands[r];
    && c.process in w.processes && OwnStreamLoaded(w, loaded, r)
    && c.phase == Finished && c.Idle() && NothingLost(c.log)
  }

  // An accepted stream is the whole trace, and there is no other remote's.
  lemma AcceptedIsWholeTrace(w: World, loaded: seq<TraceEvent>, r: RequestId)
    requires Inv(w) && StampedEvents(w, loaded, r) && Acting(loaded, r).Ok?
    ensures r in w.commands && WholeTraceLoaded(w, loaded, r)
  {
    hide Acting, Stream, IntegrityProblem, Inv, SequenceGrows, Faithful, Contiguous, Select, Shape, CmdLogged, CmdHistory,
         TokenOk, Cmd.Idle, Cmd.Script, StampedEvents;
    AcceptedIsLog(w, loaded, r);
    var client := AcceptedStream(loaded, r);
    var c := w.commands[r];
    CompleteExactlyWhen(c.log);
    CommandFacts(w, r);
    LogIsContiguous(c, w.processes[c.process]);
    assert c.log[0] in c.log;
    StreamIsSelected(loaded, r, client);
    StreamIsSelected(loaded, r, if client == Ubuntu then Android else Ubuntu);
  }

  lemma StreamIsSelected(loaded: seq<TraceEvent>, r: RequestId, role: Role)
    ensures multiset(Select(loaded, r, role)) == multiset(Stream(loaded, r, role))
    ensures Stream(loaded, r, role) == [] ==> Select(loaded, r, role) == []
  {
    SortSorts(Select(loaded, r, role));
    hide Select, SortByIndex;
    assert |Select(loaded, r, role)| == |multiset(Select(loaded, r, role))|;
  }

  /** C7, exactly: of any loaded events of which the request's own ones were stamped by its command, C7
      passes if and only if that command ended, its trace is all there, its transport call ended
      ambiguously, it served an application request, and no send of another invocation of that request
      is among the loaded events. */
  lemma C7ExactlyWhen(tv: DeviceStatus, steps: seq<Step>, loaded: seq<TraceEvent>, r: RequestId)
    requires tv.Consistent() && r in Run(tv, steps).commands && StampedEvents(Run(tv, steps), loaded, r)
    ensures var w, c := Run(tv, steps), Run(tv, steps).commands[r];
            ClassifyC7(loaded, r) == Pass <==>
              && WholeTraceLoaded(w, loaded, r) && EndedAmbiguously(c)
              && c.order.Some? && OnlySendLoaded(loaded, r, c.order.value)
  {
    hide Run, Inv, OwnStreamLoaded, OnlySendLoaded, EndedAmbiguously, Cmd.Idle, NothingLost, StampedEvents, ClassifyC7, Acting;
    RunKeepsInv(tv, steps);
    var w := Run(tv, steps);
    C7NeedsActing(loaded, r);
    if Acting(loaded, r).Ok? {
      AcceptedIsWholeTrace(w, loaded, r);
    }
    if WholeTraceLoaded(w, loaded, r) {
      C7ExactlyWhenIn(w, loaded, r);
    }
  }

  lemma C7NeedsActing(loaded: seq<TraceEvent>, r: RequestId)
    ensures ClassifyC7(loaded, r) == Pass ==> Acting(loaded, r).Ok?
  {
    hide Acting, Count, OrderOf, SendsOf, Has;
  }

  /** On the command's own complete stream, whatever else is loaded, only the last three remain. */
  lemma C7OnOwnStream(tv: DeviceStatus, steps: seq<Step>, loaded: seq<TraceEvent>, r: RequestId)
    requires tv.Consistent() && r in Run(tv, steps).commands
    requires Run(tv, steps).commands[r].process in Run(tv, steps).processes && OwnStreamLoaded(Run(tv, steps), loaded, r)
    requires var c := Run(tv, steps).commands[r]; c.phase == Finished && c.Idle() && NothingLost(c.log)
    ensures var c := Run(tv, steps).commands[r];
            ClassifyC7(loaded, r) == Pass <==>
              EndedAmbiguously(c) && c.order.Some? && OnlySendLoaded(loaded, r, c.order.value)
  {
    hide Run;
    RunKeepsInv(tv, steps);
    var w := Run(tv, steps);
    C7ExactlyWhenIn(w, loaded, r);
  }

  lemma AllLoadedHoldsOwn(w: World, loaded: seq<TraceEvent>, r: RequestId)
    requires Inv(w) && r in w.commands && AllRemotesLoaded(w, loaded)
    ensures w.commands[r].process in w.processes && OwnStreamLoaded(w, loaded, r)
    ensures w.commands[r].order.Some? ==> (OnlySendLoaded(loaded, r, w.commands[r].order.value) <==> OnlySend(w, r))
  {
    hide Inv, CmdLogged, CmdHistory, TokenOk, Shape, Select;
    CommandFacts(w, r);
    LoadedIsLog(w, loaded, r, w.processes[w.commands[r].process].role);
    hide OwnStreamLoaded;
    forall other, e | other in w.commands && e in w.commands[other].log
      ensures e.requestId == other && Remote(e.client) && e.order == w.commands[other].order && e in loaded
    {
      LogSubject(w, other, e);
      assert multiset(loaded)[e] == 1;
    }
    forall e | e in loaded && Remote(e.client) ensures e.requestId in w.commands && e in w.commands[e.requestId].log {
      assert multiset(loaded)[e] > 0;
    }
  }

  /** On the complete evidence of all remotes the loaded sends are the sends of the run: the command
      then passes if and only if, besides, no other invocation recorded a send. */
  lemma C7OnAllEvidence(tv: DeviceStatus, steps: seq<Step>, loaded: seq<TraceEvent>, r: RequestId)
    requires tv.Consistent() && r in Run(tv, steps).commands && AllRemotesLoaded(Run(tv, steps), loaded)
    requires var c := Run(tv, steps).commands[r]; c.phase == Finished && c.Idle() && NothingLost(c.log)
    ensures var w := Run(tv, steps);
            ClassifyC7(loaded, r) == Pass <==>
              EndedAmbiguously(w.commands[r]) && w.commands[r].order.Some? && OnlySend(w, r)
  {
    hide Run, Inv, AllRemotesLoaded, OnlySend, OnlySendLoaded;
    RunKeepsInv(tv, steps);
    AllLoadedHoldsOwn(Run(tv, steps), loaded, r);
    C7OnOwnStream(tv, steps, loaded, r);
  }

  /** A second invocation whose send is not among the loaded events leaves the first one's PASS. */
  lemma UnseenSecondSendPasses(tv: DeviceStatus, steps: seq<Step>, loaded: seq<TraceEvent>, r: RequestId, second: RequestId)
    requires tv.Consistent() && r in Run(tv, steps).commands && second in Run(tv, steps).commands && second != r
    requires Run(tv, steps).commands[r].process in Run(tv, steps).processes && OwnStreamLoaded(Run(tv, steps), loaded, r)
    requires var c := Run(tv, steps).commands[r];
             c.phase == Finished && c.Idle() && NothingLost(c.log) && EndedAmbiguously(c) && c.order.Some?
    requires HasSent(Run(tv, steps).commands[second]) && Run(tv, steps).commands[second].order == Run(tv, steps).commands[r].order
    requires OnlySendLoaded(loaded, r, Run(tv, steps).commands[r].order.value)
    ensures ClassifyC7(loaded, r) == Pass && !OnlySend(Run(tv, steps), r)
  {
    hide Run, ClassifyC7, HasSent;
    C7OnOwnStream(tv, steps, loaded, r);
  }
}
