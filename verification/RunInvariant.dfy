/** The invariants of every reachable acceptance run. */
module RunInvariant {
  import opened Domain
  import opened Confirmation
  import opened CommandTrace
  import opened AcceptanceRun
  import opened RunShape

  // ---------------------------------------------------------------- each participant's own trace

  predicate CmdOk(c: Cmd, processes: map<nat, Process>) {
    && c.process in processes && Remote(processes[c.process].role)
    && Shape(c) && CmdLogged(c, processes[c.process])
  }

  predicate WatchOk(id: nat, o: Watch, processes: map<nat, Process>) {
    && id in processes && WatchShape(o) && WatchLogged(o, processes[id])
  }

  predicate CommandsOk(commands: map<RequestId, Cmd>, processes: map<nat, Process>) {
    forall r :: r in commands ==> commands[r].id == r && CmdOk(commands[r], processes)
  }

  predicate WatchesOk(watches: map<nat, Watch>, processes: map<nat, Process>) {
    forall id :: id in watches ==> WatchOk(id, watches[id], processes)
  }

  predicate LocalInv(w: World) { CommandsOk(w.commands, w.processes) && WatchesOk(w.watches, w.processes) }

  lemma NewCmdOk(s: Step, processes: map<nat, Process>)
    requires s.Prepare? && s.process in processes && Remote(processes[s.process].role) && ArgsFit(s.command, s.args)
    requires processes[s.process].recorder.NextIndex(s.requestId) == 0
    ensures CmdOk(NewCmd(s.requestId, s.process, s.command, s.order, s.gated, s.checks, s.args), processes)
  {
  }

  /** A request id that no command uses yet was never stamped by any process of a remote. */
  predicate Unstamped(w: World) { StampsOwned(w.commands, w.processes) }

  predicate StampsOwned(commands: map<RequestId, Cmd>, processes: map<nat, Process>) {
    forall p, r :: p in processes && Remote(processes[p].role) && r in processes[p].recorder.indexes
      ==> r in commands && commands[r].process == p
  }

  lemma ExtendsKeepsIds(c: Cmd, n: Cmd)
    requires Extends(c, n)
    ensures n.id == c.id && n.process == c.process
  {
  }

  lemma ActKeepsLocal(w: World, requestId: RequestId, a: Action)
    requires LocalInv(w)
    ensures LocalInv(DoAct(w, requestId, a))
  {
    hide Shape, CmdLogged, CmdStep, Extends, WatchOk, Cmd.Script, Agrees, HeldAfter, ReleasesAfter, Witnessed;
    if requestId in w.commands && CmdStep(w.commands[requestId], a, |w.timeline|).Some? {
      var c := w.commands[requestId];
      var n := CmdStep(c, a, |w.timeline|).value;
      ActionKeepsShape(c, a, |w.timeline|);
      ExtendsKeepsIds(c, n);
      ActionKeepsLogged(c, n, w.processes[c.process]);
    }
  }

  lemma RecordKeepsLocal(w: World, requestId: RequestId, wroteMarker: bool, wroteEvent: bool)
    requires LocalInv(w) && Unstamped(w)
    ensures LocalInv(DoRecord(w, requestId, wroteMarker, wroteEvent))
    ensures Unstamped(DoRecord(w, requestId, wroteMarker, wroteEvent))
  {
    RecordKeepsCommands(w, requestId, wroteMarker, wroteEvent);
    RecordKeepsWatches(w, requestId, wroteMarker, wroteEvent);
    RecordKeepsOwned(w, requestId, wroteMarker, wroteEvent);
    hide DoRecord, CommandsOk, WatchesOk, StampsOwned;
  }

  lemma RecordKeepsCommands(w: World, requestId: RequestId, wroteMarker: bool, wroteEvent: bool)
    requires LocalInv(w)
    ensures var n := DoRecord(w, requestId, wroteMarker, wroteEvent); CommandsOk(n.commands, n.processes)
  {
    hide WatchesOk, Shape, LogOk, Emitted, RecordCall, Cmd.Script;
    var n := DoRecord(w, requestId, wroteMarker, wroteEvent);
    if n != w {
      var c := w.commands[requestId];
      var p := w.processes[c.process];
      var e := c.Script()[c.recorded];
      RecordKeepsLogged(c, p, wroteMarker, wroteEvent);
      SameShape(c, RecordCall(p.recorder, p.role, c.Subject(), e, wroteMarker, wroteEvent));
      hide CmdLogged;
      forall r | r in n.commands ensures n.commands[r].id == r && CmdOk(n.commands[r], n.processes) {
        if r != requestId && w.commands[r].process == c.process {
          OthersKeepLogged(w.commands[r], p, c.Subject(), e, wroteMarker, wroteEvent);
        }
      }
    }
  }

  lemma RecordKeepsWatches(w: World, requestId: RequestId, wroteMarker: bool, wroteEvent: bool)
    requires LocalInv(w)
    ensures var n := DoRecord(w, requestId, wroteMarker, wroteEvent); WatchesOk(n.watches, n.processes)
  {
    hide Shape, CmdLogged, LogOk, Emitted, RecordCall, Cmd.Script, Watch.Script, WatchShape;
  }

  lemma RecordKeepsOwned(w: World, requestId: RequestId, wroteMarker: bool, wroteEvent: bool)
    requires LocalInv(w) && Unstamped(w)
    ensures Unstamped(DoRecord(w, requestId, wroteMarker, wroteEvent))
  {
    hide CmdOk, WatchesOk, RecordCall, Cmd.Script;
    if DoRecord(w, requestId, wroteMarker, wroteEvent) != w {
      var c := w.commands[requestId];
      var p := w.processes[c.process];
      RecordIndexes(p.recorder, p.role, c.Subject(), c.Script()[c.recorded], wroteMarker, wroteEvent);
    }
  }

  lemma OthersKeepLogged(d: Cmd, p: Process, subject: Subject, e: Emission, wroteMarker: bool, wroteEvent: bool)
    requires CmdLogged(d, p) && d.id != subject.requestId
    ensures CmdLogged(d, p.(recorder := RecordCall(p.recorder, p.role, subject, e, wroteMarker, wroteEvent).state))
  {
    hide Cmd.Script, Emitted, RecordCall;
    RecordKeepsOthers(d.log, d.file, p.role, d.Subject(), p.recorder, subject, e, wroteMarker, wroteEvent);
    hide LogOk;
  }

  lemma SameShape(c: Cmd, call: Recording)
    requires Shape(c)
    ensures Shape(Logging(c, call))
  {
    hide Cmd.Script, ArgsFit, ExpectedIdentity, Bind, OnlyReads;
    assert BoundToTarget(c) == BoundToTarget(Logging(c, call));
    hide BoundToTarget;
  }

  lemma RecordIndexes(s: RecorderState, role: Role, subject: Subject, e: Emission, wroteMarker: bool, wroteEvent: bool)
    ensures RecordCall(s, role, subject, e, wroteMarker, wroteEvent).state.indexes.Keys
              == s.indexes.Keys + {subject.requestId}
  {
  }

  // The observer after one of its emissions was passed to the recorder.
  function LoggingWatch(o: Watch, call: Recording): Watch {
    o.(recorded := o.recorded + 1, log := o.log + call.stamped, file := o.file + call.written)
  }

  lemma RecordWatchKeepsLocal(w: World, observer: nat, wroteMarker: bool, wroteEvent: bool)
    requires LocalInv(w) && Unstamped(w)
    ensures LocalInv(DoRecordWatch(w, observer, wroteMarker, wroteEvent))
    ensures Unstamped(DoRecordWatch(w, observer, wroteMarker, wroteEvent))
  {
    hide CommandsOk, StampsOwned, LogOk, Emitted, RecordCall, Watch.Script;
    var n := DoRecordWatch(w, observer, wroteMarker, wroteEvent);
    if n != w {
      var o := w.watches[observer];
      var p := w.processes[observer];
      assert WatchOk(observer, o, w.processes);
      RecordKeepsWatch(o, p, wroteMarker, wroteEvent);
      var call := RecordCall(p.recorder, p.role, o.Subject(), o.Script()[o.recorded], wroteMarker, wroteEvent);
      assert WatchShape(LoggingWatch(o, call));
      ObserverKeepsCommands(w, observer, p.(recorder := call.state));
      hide WatchShape, WatchLogged;
      assert n.watches == w.watches[observer := LoggingWatch(o, call)];
    }
  }

  // No command runs on an observer's process.
  lemma ObserverKeepsCommands(w: World, observer: nat, p: Process)
    requires LocalInv(w) && Unstamped(w) && observer in w.processes && p.role == w.processes[observer].role == ObserverRole
    ensures var processes := w.processes[observer := p]; CommandsOk(w.commands, processes) && StampsOwned(w.commands, processes)
  {
    hide WatchesOk, Shape, CmdLogged;
  }

  lemma WatchScriptGrows(o: Watch, n: Watch, p: Process)
    requires n.recorded == o.recorded && n.log == o.log && n.file == o.file
    requires o.Script() <= n.Script() && (n.request == o.request || o.log == [])
    requires WatchLogged(o, p) && (n.phase == Waiting ==> o.phase == Waiting)
    ensures WatchLogged(n, p)
  {
    assert n.Script()[..o.recorded] == o.Script()[..o.recorded];
    hide Emitted, Watch.Script;
    if o.log == [] {
      assert p.recorder.indexes == map[];
    }
  }

  lemma ReadKeepsWatch(o: Watch, session: Option<nat>, now: nat)
    requires WatchShape(o) && (o.phase == Found || o.phase == Watching)
    ensures WatchShape(AfterObserverRead(o, session, now))
    ensures o.Script() <= AfterObserverRead(o, session, now).Script()
  {
    var n := AfterObserverRead(o, session, now);
    assert o.Script() == FailedReads(o.early) + o.SightEvents() + FailedReads(o.late);
    if o.phase == Found {
      assert o.Script() == FailedReads(o.early);
    }
  }

  lemma FailedReadKeepsWatch(o: Watch)
    requires WatchShape(o) && (o.phase == Found || o.phase == Watching)
    ensures WatchShape(AfterFailedRead(o)) && o.Script() <= AfterFailedRead(o).Script()
  {
    var n := AfterFailedRead(o);
    assert FailedReads(o.early + 1) == FailedReads(o.early) + FailedReads(1);
    assert FailedReads(o.late + 1) == FailedReads(o.late) + FailedReads(1);
    assert o.Script() == FailedReads(o.early) + o.SightEvents() + FailedReads(o.late);
    if o.phase == Found {
      assert o.Script() == FailedReads(o.early);
    }
  }

  lemma ProofKeepsWatch(o: Watch, n: Watch)
    requires n == o.(phase := n.phase, proof := n.proof)
    requires o.ProofEvents() <= n.ProofEvents()
    ensures o.Script() <= n.Script()
  {
    var front := FailedReads(o.early) + o.SightEvents() + FailedReads(o.late);
    assert n.SightEvents() == o.SightEvents();
    assert o.Script() == front + o.ProofEvents() && n.Script() == front + n.ProofEvents();
  }

  predicate WatchStep(s: Step) {
    s.FindHold? || s.ObserverReads? || s.ObserverReadFails? || s.ObserverTimesOut? || s.Release?
  }

  /** The observer after one of its steps. */
  lemma WatchStepOk(w: World, s: Step, o: Watch, o2: Watch)
    requires WatchStep(s) && s.observer in w.watches && o == w.watches[s.observer] && o.Idle()
    requires WatchShape(o) && DoWatch(w, s) != w && o2 == DoWatch(w, s).watches[s.observer]
    requires o.phase == Waiting ==> o.log == []
    ensures WatchShape(o2) && o.Script() <= o2.Script() && (o2.request == o.request || o.log == [])
    ensures o2.recorded == o.recorded && o2.log == o.log && o2.file == o.file
    ensures o2.phase == Waiting ==> o.phase == Waiting
  {
    match s {
      case FindHold(_, _) => assert o.Script() == o2.Script();
      case ObserverReads(_) => ReadKeepsWatch(o, w.tv.Session(), |w.timeline|);
      case ObserverReadFails(_) => FailedReadKeepsWatch(o);
      case ObserverTimesOut(_) => ProofKeepsWatch(o, o2);
      case Release(_, token) => ProofKeepsWatch(o, o2);
    }
  }

  lemma WatchKeepsLocal(w: World, s: Step)
    requires LocalInv(w) && WatchStep(s)
    ensures LocalInv(DoWatch(w, s))
  {
    hide LogOk, Emitted, CommandsOk, WatchShape, DoWatch, Watch.Script;
    var n := DoWatch(w, s);
    if n != w {
      DoWatchFrame(w, s);
      var o := w.watches[s.observer];
      var o2 := n.watches[s.observer];
      assert WatchOk(s.observer, o, w.processes);
      WatchStepOk(w, s, o, o2);
      WatchScriptGrows(o, o2, w.processes[s.observer]);
      hide WatchLogged;
    }
  }

  // ---------------------------------------------------------------- what really happened

  predicate Entered(c: Cmd) { c.phase.InTransport? || c.answered || c.ending.AtSend? }

  /** The confirmation of an answered command was begun. */
  predicate Verifies(c: Cmd) {
    c.answered && (c.phase.Verifying? || c.phase.Finished? || c.phase.Escaped?)
  }

  predicate HasStatus(events: seq<Emission>) {
    exists e :: e in events && e.event == ConfirmationStatus
  }

  predicate CmdHistory(timeline: seq<Happening>, c: Cmd) {
    && (Entered(c) ==> c.enteredAt < |timeline| && timeline[c.enteredAt] == TransportEntered(c.id, c.target))
    && (c.answered ==> c.enteredAt < c.returnedAt < |timeline| && timeline[c.returnedAt] == TransportReturned(c.id))
    && (HasStatus(c.observed) ==>
          c.readAt < |timeline| && timeline[c.readAt].ConfirmationRead? && timeline[c.readAt].requestId == c.id)
  }

  /** Each entry into the transport and each confirmation read in the timeline is the command's own. */
  predicate HappeningOk(commands: map<RequestId, Cmd>, h: Happening, m: nat) {
    match h
    case TransportEntered(id, _) => id in commands && Entered(commands[id]) && commands[id].enteredAt == m
    case ConfirmationRead(id, _) =>
      id in commands && Verifies(commands[id]) && HasStatus(commands[id].observed) && commands[id].verifyFrom <= m
    case _ => true
  }

  predicate HeldOk(held: map<RequestId, nat>, commands: map<RequestId, Cmd>) {
    forall r :: r in held ==> r in commands && commands[r].phase.Held? && commands[r].target == Some(held[r])
  }

  /** The observer follows a hold whose command had been answered, on the session its marker names. */
  predicate Tracks(o: Watch, commands: map<RequestId, Cmd>) {
    && o.request in commands && commands[o.request].answered
    && commands[o.request].target == Some(o.session) && commands[o.request].returnedAt < o.foundAt
  }

  predicate WatchHistory(timeline: seq<Happening>, id: nat, o: Watch, commands: map<RequestId, Cmd>) {
    && (o.phase.Found? || o.sight.SawCaptured? ==> Tracks(o, commands) && o.foundAt < |timeline|)
    && (o.sight.SawCaptured? ==>
          o.foundAt < o.seenAt < |timeline| && timeline[o.seenAt] == ReportedToObserver(id, Some(o.session)))
    && (o.proof.SawChange? || o.proof.SentRelease? ==>
          o.seenAt < o.changedAt < |timeline| && timeline[o.changedAt] == ReportedToObserver(id, Some(o.changed)))
  }

  /** A token was drawn by one observer, after its proof. */
  predicate IssuedOk(issued: map<Token, nat>, watches: map<nat, Watch>) {
    forall t :: t in issued ==> issued[t] in watches && watches[issued[t]].proof == SentRelease(t)
  }

  predicate ReleasesOk(releases: map<RequestId, Token>, issued: map<Token, nat>, watches: map<nat, Watch>) {
    forall r :: r in releases ==>
      releases[r] in issued && issued[releases[r]] in watches && watches[issued[releases[r]]].request == r
  }

  predicate TokenOk(issued: map<Token, nat>, watches: map<nat, Watch>, c: Cmd) {
    c.hold.HoldEnded? ==>
      && c.hold.token in issued && issued[c.hold.token] in watches
      && watches[issued[c.hold.token]].request == c.id
      && watches[issued[c.hold.token]].changedAt < c.verifyFrom
  }

  predicate TokensOk(issued: map<Token, nat>, watches: map<nat, Watch>, commands: map<RequestId, Cmd>) {
    forall r :: r in commands ==> TokenOk(issued, watches, commands[r])
  }

  // A command's confirmation begins no later than now.
  predicate VerifiesByNow(c: Cmd, now: nat) {
    c.verifyFrom <= now && (c.hold.HoldEnded? ==> Verifies(c))
  }

  predicate CommandsHistory(timeline: seq<Happening>, commands: map<RequestId, Cmd>) {
    forall r :: r in commands ==> CmdHistory(timeline, commands[r]) && VerifiesByNow(commands[r], |timeline|)
  }

  predicate TimelineOk(timeline: seq<Happening>, commands: map<RequestId, Cmd>) {
    forall m :: 0 <= m < |timeline| ==> HappeningOk(commands, timeline[m], m)
  }

  predicate WatchesHistory(timeline: seq<Happening>, watches: map<nat, Watch>, commands: map<RequestId, Cmd>) {
    forall id :: id in watches ==> WatchHistory(timeline, id, watches[id], commands)
  }

  predicate HistoryInv(w: World) {
    && CommandsHistory(w.timeline, w.commands) && TimelineOk(w.timeline, w.commands)
    && HeldOk(w.held, w.commands) && WatchesHistory(w.timeline, w.watches, w.commands)
    && IssuedOk(w.issued, w.watches) && ReleasesOk(w.releases, w.issued, w.watches)
    && TokensOk(w.issued, w.watches, w.commands)
  }

  /** What one action keeps of its command's history, and what it may add to the timeline. */
  predicate HistoryKept(c: Cmd, a: Action, n: Cmd, timeline: seq<Happening>) {
    && n.id == c.id && n.process == c.process
    && CmdHistory(timeline + Witnessed(c, a), n)
    && (c.answered ==> n.answered && n.target == c.target && n.returnedAt == c.returnedAt)
    && (Entered(c) ==> Entered(n) && n.enteredAt == c.enteredAt)
    && (Verifies(c) ==> Verifies(n) && n.verifyFrom == c.verifyFrom)
    && (HasStatus(c.observed) ==> HasStatus(n.observed))
    && (n.hold.HoldEnded? ==>
          || (c.hold == n.hold && c.verifyFrom == n.verifyFrom)
          || (a == SeeRelease(n.hold.token) && n.verifyFrom == |timeline|))
    && |Witnessed(c, a)| <= 1
    && (|Witnessed(c, a)| == 1 ==> AddedOk(c, n, Witnessed(c, a)[0], |timeline|))
  }

  predicate AddedOk(c: Cmd, n: Cmd, h: Happening, m: nat) {
    match h
    case TransportEntered(id, _) => id == c.id && Entered(n) && n.enteredAt == m
    case ConfirmationRead(id, _) => id == c.id && Verifies(n) && HasStatus(n.observed) && n.verifyFrom <= m
    case _ => true
  }

  lemma ReadHistory(c: Cmd, outcome: ReadOutcome, late: bool, now: nat)
    ensures var n := AfterStatusRead(c, outcome, late, now);
            && (HasStatus(c.observed) ==> HasStatus(n.observed))
            && (outcome.Answered? ==> HasStatus(n.observed) && n.readAt == now)
            && (!outcome.Answered? ==> HasStatus(n.observed) == HasStatus(c.observed) && n.readAt == c.readAt)
  {
    hide AfterRead, Cmd.Script;
    var n := AfterStatusRead(c, outcome, late, now);
    if outcome.Answered? {
      var e := n.observed[|n.observed| - 1];
      assert e in n.observed && e.event == ConfirmationStatus;
    } else if outcome.ReadFailed? {
      assert forall e :: e in n.observed ==> e in c.observed || e.event == ConfirmationReadFailed;
      if HasStatus(c.observed) {
        var e :| e in c.observed && e.event == ConfirmationStatus;
        assert e in n.observed;
      }
    }
  }

  // What no read of the confirmation changes, and where it leaves the command.
  predicate ReadMoves(c: Cmd, n: Cmd) {
    && n.id == c.id && n.process == c.process && n.target == c.target && n.hold == c.hold
    && n.answered == c.answered && n.enteredAt == c.enteredAt && n.returnedAt == c.returnedAt
    && n.verifyFrom == c.verifyFrom && !n.ending.AtSend?
    && (n.phase.Verifying? || n.phase.Finished? || n.phase.Escaped?)
  }

  lemma ReadChanges(c: Cmd, outcome: ReadOutcome, late: bool, now: nat)
    requires c.phase.Verifying? && !c.ending.AtSend?
    ensures ReadMoves(c, AfterStatusRead(c, outcome, late, now))
  {
    if outcome.Answered? {
      AnswerChanges(c, outcome.status, late, now);
    }
    hide AfterAnswer;
  }

  lemma AnswerChanges(c: Cmd, status: DeviceStatus, late: bool, now: nat)
    requires !c.ending.AtSend?
    ensures ReadMoves(c, AfterAnswer(c, status, late, now))
  {
    hide AfterRead, ReadEvents;
  }

  lemma ReadActionHistory(c: Cmd, a: Action, timeline: seq<Happening>)
    requires a.ReadStatus? && c.phase.Verifying? && c.answered && c.ending == Open && CmdHistory(timeline, c)
    requires VerifiesByNow(c, |timeline|)
    ensures var n := AfterStatusRead(c, a.outcome, a.late, |timeline|);
            HistoryKept(c, a, n, timeline) && VerifiesByNow(n, |timeline| + |Witnessed(c, a)|)
  {
    hide Cmd.Script, HasStatus, CmdHistory, AfterStatusRead;
    ReadHistory(c, a.outcome, a.late, |timeline|);
    ReadChanges(c, a.outcome, a.late, |timeline|);
    var n := AfterStatusRead(c, a.outcome, a.late, |timeline|);
    SameHistory(c, n, timeline, Witnessed(c, a));
  }

  lemma SameHistory(c: Cmd, n: Cmd, timeline: seq<Happening>, more: seq<Happening>)
    requires CmdHistory(timeline, c)
    requires n.id == c.id && (Entered(n) ==> n.target == c.target) && n.enteredAt == c.enteredAt && n.returnedAt == c.returnedAt
    requires (Entered(n) ==> Entered(c)) && (n.answered ==> c.answered)
    requires HasStatus(n.observed) ==>
               (HasStatus(c.observed) && n.readAt == c.readAt)
               || (n.readAt == |timeline| && |more| > 0 && more[0].ConfirmationRead? && more[0].requestId == c.id)
    ensures CmdHistory(timeline + more, n)
  {
    hide HasStatus, Entered;
  }

  lemma ActionHistory(c: Cmd, a: Action, timeline: seq<Happening>)
    requires Shape(c) && CmdHistory(timeline, c) && CmdStep(c, a, |timeline|).Some?
    requires VerifiesByNow(c, |timeline|)
    ensures var n := CmdStep(c, a, |timeline|).value;
            HistoryKept(c, a, n, timeline) && VerifiesByNow(n, |timeline| + |Witnessed(c, a)|)
  {
    hide Cmd.Script, AfterRead, Matches, SeenAfter, ArgsFit, Bind, ExpectedIdentity, OnlyReads, HasStatus,
         BoundToTarget, HistoryKept, AfterStatusRead;
    if a.ReadStatus? {
      ReadActionHistory(c, a, timeline);
    } else {
      OtherActionHistory(c, a, timeline);
    }
  }

  lemma OtherActionHistory(c: Cmd, a: Action, timeline: seq<Happening>)
    requires Shape(c) && CmdHistory(timeline, c) && CmdStep(c, a, |timeline|).Some? && !a.ReadStatus?
    requires VerifiesByNow(c, |timeline|)
    ensures var n := CmdStep(c, a, |timeline|).value;
            HistoryKept(c, a, n, timeline) && VerifiesByNow(n, |timeline| + |Witnessed(c, a)|)
  {
    if a.EnterTransport? || a.TransportReturns? {
      TransportActionHistory(c, a, timeline);
    } else if SendsLater(a) {
      EarlyActionHistory(c, a, timeline);
    } else {
      LateActionHistory(c, a, timeline);
    }
    hide Shape, CmdHistory, CmdStep, VerifiesByNow, HistoryKept, Witnessed, SendsLater;
  }

  /** The actions before the transport is entered. */
  predicate SendsLater(a: Action) {
    a.Capture? || a.CaptureFails? || a.PreReadEscapes? || a.RefuseFixedVolume? || a.Announce?
  }

  lemma EarlyActionHistory(c: Cmd, a: Action, timeline: seq<Happening>)
    requires Shape(c) && CmdHistory(timeline, c) && CmdStep(c, a, |timeline|).Some? && SendsLater(a)
    requires VerifiesByNow(c, |timeline|)
    ensures var n := CmdStep(c, a, |timeline|).value;
            HistoryKept(c, a, n, timeline) && VerifiesByNow(n, |timeline| + |Witnessed(c, a)|)
  {
    EarlyActionSends(c, a, |timeline|);
    hide Cmd.Script, Shape, CmdStep, HasStatus;
  }

  lemma CaptureSends(c: Cmd, status: DeviceStatus)
    requires !c.answered && !Entered(c)
    ensures !AfterCapture(c, status).answered && !Entered(AfterCapture(c, status))
  {
    hide Bind, IdentityOf, DeviceStatus.Session;
    match status.media
    case None =>
    case Some(_) =>
      if c.command == Seek {
      } else {
      }
  }

  lemma CaptureKeepsTrace(c: Cmd, status: DeviceStatus)
    ensures SameTrace(c, AfterCapture(c, status))
  {
    hide Bind, IdentityOf, DeviceStatus.Session;
    if status.media.Some? {
    }
  }

  predicate SameTrace(c: Cmd, n: Cmd) {
    && n.id == c.id && n.process == c.process && n.observed == c.observed && n.readAt == c.readAt
    && n.hold == c.hold && n.verifyFrom == c.verifyFrom
  }

  // The command sent nothing before, and nothing since.
  predicate StillUnsent(c: Cmd, n: Cmd) {
    SameTrace(c, n) && !c.answered && !n.answered && !Entered(c) && !Entered(n)
  }

  lemma EarlyActionSends(c: Cmd, a: Action, now: nat)
    requires Shape(c) && CmdStep(c, a, now).Some? && SendsLater(a)
    ensures StillUnsent(c, CmdStep(c, a, now).value)
  {
    hide Cmd.Script, ArgsFit, Bind, ExpectedIdentity, OnlyReads, BoundToTarget, IdentityOf, UsableContent;
    hide AfterReturn, AfterHold, AfterStatusRead;
    if a.Capture? {
      CaptureSends(c, a.status);
      CaptureKeepsTrace(c, a.status);
    }
    hide AfterCapture;
  }

  lemma LateActionHistory(c: Cmd, a: Action, timeline: seq<Happening>)
    requires Shape(c) && CmdHistory(timeline, c) && CmdStep(c, a, |timeline|).Some?
    requires !SendsLater(a) && !a.EnterTransport? && !a.TransportReturns? && !a.ReadStatus?
    requires VerifiesByNow(c, |timeline|)
    ensures var n := CmdStep(c, a, |timeline|).value;
            HistoryKept(c, a, n, timeline) && VerifiesByNow(n, |timeline| + |Witnessed(c, a)|)
  {
    hide Cmd.Script, ArgsFit, Bind, ExpectedIdentity, OnlyReads, HasStatus, BoundToTarget, IdentityOf, UsableContent, CmdHistory,
         AfterCapture, AfterReturn, AfterStatusRead;
    SameHistory(c, CmdStep(c, a, |timeline|).value, timeline, Witnessed(c, a));
  }

  lemma TransportActionHistory(c: Cmd, a: Action, timeline: seq<Happening>)
    requires Shape(c) && CmdHistory(timeline, c) && CmdStep(c, a, |timeline|).Some?
    requires a.EnterTransport? || a.TransportReturns?
    requires VerifiesByNow(c, |timeline|)
    ensures var n := CmdStep(c, a, |timeline|).value;
            HistoryKept(c, a, n, timeline) && VerifiesByNow(n, |timeline| + |Witnessed(c, a)|)
  {
    if a.EnterTransport? {
      EnterHistory(c, timeline);
    } else {
      ReturnHistory(c, a.answer, timeline);
    }
    hide Shape, CmdHistory, CmdStep, VerifiesByNow, HistoryKept, Witnessed;
  }

  lemma EnterHistory(c: Cmd, timeline: seq<Happening>)
    requires Shape(c) && CmdHistory(timeline, c) && CmdStep(c, EnterTransport, |timeline|).Some?
    requires VerifiesByNow(c, |timeline|)
    ensures var n := CmdStep(c, EnterTransport, |timeline|).value;
            && HistoryKept(c, EnterTransport, n, timeline)
            && VerifiesByNow(n, |timeline| + |Witnessed(c, EnterTransport)|)
  {
    hide Cmd.Script, ArgsFit, Bind, ExpectedIdentity, OnlyReads, HasStatus, BoundToTarget;
  }

  lemma ReturnHistory(c: Cmd, outcome: TransportOutcome, timeline: seq<Happening>)
    requires Shape(c) && CmdHistory(timeline, c) && CmdStep(c, TransportReturns(outcome), |timeline|).Some?
    requires VerifiesByNow(c, |timeline|)
    ensures var n := CmdStep(c, TransportReturns(outcome), |timeline|).value;
            && HistoryKept(c, TransportReturns(outcome), n, timeline)
            && VerifiesByNow(n, |timeline| + |Witnessed(c, TransportReturns(outcome))|)
  {
    hide Cmd.Script, ArgsFit, Bind, ExpectedIdentity, OnlyReads, HasStatus, BoundToTarget;
  }

  lemma CmdHistoryGrows(timeline: seq<Happening>, more: seq<Happening>, c: Cmd)
    requires CmdHistory(timeline, c)
    ensures CmdHistory(timeline + more, c)
  {
    hide HasStatus, Entered;
  }

  lemma WatchHistoryGrows(
    timeline: seq<Happening>, more: seq<Happening>, id: nat, o: Watch,
    commands: map<RequestId, Cmd>, later: map<RequestId, Cmd>)
    requires WatchHistory(timeline, id, o, commands)
    requires Tracks(o, commands) ==> Tracks(o, later)
    ensures WatchHistory(timeline + more, id, o, later)
  {
    hide Tracks;
  }

  lemma HappeningKept(w: World, c: Cmd, a: Action, n: Cmd, h: Happening, m: nat)
    requires c.id in w.commands && w.commands[c.id] == c && HistoryKept(c, a, n, w.timeline)
    requires HappeningOk(w.commands, h, m)
    ensures HappeningOk(w.commands[c.id := n], h, m)
  {
    hide CmdHistory, HasStatus, Entered, Verifies, Witnessed;
  }

  lemma ActKeepsHeld(w: World, c: Cmd, a: Action, n: Cmd)
    requires c.id in w.commands && w.commands[c.id] == c && HeldOk(w.held, w.commands) && Shape(c)
    requires CmdStep(c, a, |w.timeline|) == Some(n)
    ensures HeldOk(HeldAfter(w, c, a), w.commands[c.id := n])
  {
    hide Cmd.Script, AfterStatusRead, AfterCapture, Bind, ArgsFit, BoundToTarget, OnlyReads;
  }

  lemma ActKeepsToken(w: World, c: Cmd, a: Action, n: Cmd)
    requires HistoryInv(w) && c.id in w.commands && w.commands[c.id] == c && Agrees(w, c.id, a)
    requires HistoryKept(c, a, n, w.timeline)
    ensures TokenOk(w.issued, w.watches, n)
  {
    hide CmdHistory, HasStatus, HappeningOk, HeldOk, Entered, Verifies, Witnessed, AddedOk;
    if n.hold.HoldEnded? && a == SeeRelease(n.hold.token) && n.verifyFrom == |w.timeline| {
      var o := w.issued[n.hold.token];
      assert WatchHistory(w.timeline, o, w.watches[o], w.commands);
    }
  }

  lemma ActKeepsHistory(w: World, requestId: RequestId, a: Action)
    requires LocalInv(w) && HistoryInv(w)
    ensures HistoryInv(DoAct(w, requestId, a))
  {
    hide Shape, CmdLogged, CmdStep, Cmd.Script, HeldAfter, Witnessed, WatchOk;
    var n := DoAct(w, requestId, a);
    if n != w {
      var c := w.commands[requestId];
      var c2 := CmdStep(c, a, |w.timeline|).value;
      var more := Witnessed(c, a);
      ActionHistory(c, a, w.timeline);
      ActKeepsHeld(w, c, a, c2);
      ActKeepsToken(w, c, a, c2);
      ActKeepsTimeline(w, c, a, c2);
      ActKeepsOthers(w, c, a, c2);
      hide HeldOk, CmdHistory, HappeningOk, WatchHistory, HistoryKept, VerifiesByNow, Agrees;
      ActAssembles(w, n, c, c2, a);
    }
  }

  lemma ActKeepsTimeline(w: World, c: Cmd, a: Action, n: Cmd)
    requires HistoryInv(w) && c.id in w.commands && w.commands[c.id] == c && HistoryKept(c, a, n, w.timeline)
    ensures var timeline := w.timeline + Witnessed(c, a);
            forall m :: 0 <= m < |timeline| ==> HappeningOk(w.commands[c.id := n], timeline[m], m)
  {
    hide CmdHistory, HeldOk, WatchHistory, Witnessed, HasStatus, Verifies, Entered, VerifiesByNow;
    var timeline := w.timeline + Witnessed(c, a);
    forall m | 0 <= m < |timeline| ensures HappeningOk(w.commands[c.id := n], timeline[m], m) {
      if m < |w.timeline| {
        HappeningKept(w, c, a, n, w.timeline[m], m);
      } else {
        assert timeline[m] == Witnessed(c, a)[0];
      }
    }
  }

  lemma ActKeepsOthers(w: World, c: Cmd, a: Action, n: Cmd)
    requires HistoryInv(w) && c.id in w.commands && w.commands[c.id] == c && HistoryKept(c, a, n, w.timeline)
    requires VerifiesByNow(n, |w.timeline| + |Witnessed(c, a)|)
    ensures var timeline, commands := w.timeline + Witnessed(c, a), w.commands[c.id := n];
            && (forall r :: r in commands ==> CmdHistory(timeline, commands[r]) && VerifiesByNow(commands[r], |timeline|))
            && (forall id :: id in w.watches ==> WatchHistory(timeline, id, w.watches[id], commands))
  {
    var timeline, commands := w.timeline + Witnessed(c, a), w.commands[c.id := n];
    forall r | r in commands ensures CmdHistory(timeline, commands[r]) && VerifiesByNow(commands[r], |timeline|) {
      if r != c.id {
        CmdHistoryGrows(w.timeline, Witnessed(c, a), w.commands[r]);
      }
      hide CmdHistory, Witnessed, HappeningOk, HeldOk, WatchHistory;
    }
    forall id | id in w.watches ensures WatchHistory(timeline, id, w.watches[id], commands) {
      TracksKept(w, c, a, n, w.watches[id]);
      WatchHistoryGrows(w.timeline, Witnessed(c, a), id, w.watches[id], w.commands, commands);
      hide CmdHistory, Witnessed, HappeningOk, HeldOk, WatchHistory;
    }
  }

  lemma TracksKept(w: World, c: Cmd, a: Action, n: Cmd, o: Watch)
    requires c.id in w.commands && w.commands[c.id] == c && HistoryKept(c, a, n, w.timeline)
    ensures Tracks(o, w.commands) ==> Tracks(o, w.commands[c.id := n])
  {
    hide CmdHistory, HasStatus, Entered, Verifies, Witnessed, AddedOk;
  }

  lemma ActAssembles(w: World, n: World, c: Cmd, c2: Cmd, a: Action)
    requires HistoryInv(w)
    requires n == w.(commands := w.commands[c.id := c2], held := HeldAfter(w, c, a),
                     releases := ReleasesAfter(w, c, a), timeline := w.timeline + Witnessed(c, a))
    requires forall r :: r in n.commands ==>
               CmdHistory(n.timeline, n.commands[r]) && VerifiesByNow(n.commands[r], |n.timeline|)
    requires forall m :: 0 <= m < |n.timeline| ==> HappeningOk(n.commands, n.timeline[m], m)
    requires HeldOk(n.held, n.commands)
    requires forall id :: id in n.watches ==> WatchHistory(n.timeline, id, n.watches[id], n.commands)
    requires TokenOk(w.issued, w.watches, c2)
    ensures HistoryInv(n)
  {
    hide HeldOk, CmdHistory, HappeningOk, WatchHistory, VerifiesByNow, HeldAfter, Witnessed;
  }

  // A command that differs only in what was recorded of it.
  predicate SameButLogged(c: Cmd, n: Cmd) {
    n == c.(recorded := n.recorded, log := n.log, file := n.file)
  }

  lemma LoggedSameHistory(timeline: seq<Happening>, commands: map<RequestId, Cmd>, c: Cmd, n: Cmd)
    requires c.id in commands && commands[c.id] == c && SameButLogged(c, n)
    ensures CmdHistory(timeline, n) == CmdHistory(timeline, c)
    ensures forall h, m :: HappeningOk(commands, h, m) ==> HappeningOk(commands[c.id := n], h, m)
    ensures forall o :: Tracks(o, commands) ==> Tracks(o, commands[c.id := n])
    ensures forall held :: HeldOk(held, commands) ==> HeldOk(held, commands[c.id := n])
  {
    hide HasStatus;
  }

  lemma LoggedKeepsHistory(w: World, c: Cmd, n: Cmd, processes: map<nat, Process>)
    requires HistoryInv(w) && c.id in w.commands && w.commands[c.id] == c && SameButLogged(c, n)
    ensures HistoryInv(w.(processes := processes, commands := w.commands[c.id := n]))
  {
    LoggedSameHistory(w.timeline, w.commands, c, n);
    OneCommandHistory(w, c.id);
    hide HistoryInv, HappeningOk, CmdHistory, HeldOk, Tracks;
    CommandAssembles(w, w.(processes := processes, commands := w.commands[c.id := n]), c.id, n);
  }

  lemma OneCommandHistory(w: World, r: RequestId)
    requires HistoryInv(w) && r in w.commands
    ensures var c := w.commands[r];
            CmdHistory(w.timeline, c) && VerifiesByNow(c, |w.timeline|) && TokenOk(w.issued, w.watches, c)
  {
    hide HappeningOk, CmdHistory, HeldOk, WatchHistory, VerifiesByNow, TokenOk, IssuedOk, ReleasesOk;
  }

  lemma RecordKeepsHistory(w: World, requestId: RequestId, wroteMarker: bool, wroteEvent: bool)
    requires LocalInv(w) && HistoryInv(w)
    ensures HistoryInv(DoRecord(w, requestId, wroteMarker, wroteEvent))
  {
    hide RecordCall, Cmd.Script, HistoryInv, CmdOk, WatchOk;
    var n := DoRecord(w, requestId, wroteMarker, wroteEvent);
    if n != w {
      LoggedKeepsHistory(w, w.commands[requestId], n.commands[requestId], n.processes);
      assert n.commands == w.commands[requestId := n.commands[requestId]];
    }
  }

  // A watch step that changes one observer and extends the timeline.
  lemma WatchAssembles(w: World, n: World, id: nat, o: Watch, more: seq<Happening>)
    requires HistoryInv(w) && id in w.watches
    requires n == w.(watches := w.watches[id := o], timeline := w.timeline + more)
    requires forall k :: 0 <= k < |more| ==> !more[k].TransportEntered? && !more[k].ConfirmationRead?
    requires w.watches[id].proof.SentRelease? ==> o == w.watches[id]
    requires WatchHistory(n.timeline, id, o, w.commands)
    ensures HistoryInv(n)
  {
    CommandsGrow(w.timeline, more, w.commands);
    TimelineGrows(w.timeline, more, w.commands);
    WatchesGrow(w.timeline, more, w.watches, w.commands);
    WatchKeepsTokens(w, id, o);
    hide CommandsHistory, TimelineOk, HeldOk, WatchHistory, IssuedOk, ReleasesOk, TokensOk;
  }

  lemma WatchKeepsTokens(w: World, id: nat, o: Watch)
    requires HistoryInv(w) && id in w.watches
    requires (w.watches[id].proof.SentRelease? ==>
               o.proof == w.watches[id].proof && o.request == w.watches[id].request && o.changedAt == w.watches[id].changedAt)
    ensures var watches := w.watches[id := o];
            && IssuedOk(w.issued, watches) && ReleasesOk(w.releases, w.issued, watches)
            && TokensOk(w.issued, watches, w.commands)
  {
    hide CommandsHistory, TimelineOk, HeldOk, WatchesHistory;
  }

  lemma CommandsGrow(timeline: seq<Happening>, more: seq<Happening>, commands: map<RequestId, Cmd>)
    requires CommandsHistory(timeline, commands)
    ensures CommandsHistory(timeline + more, commands)
  {
    forall r | r in commands ensures CmdHistory(timeline + more, commands[r]) {
      CmdHistoryGrows(timeline, more, commands[r]);
    }
    hide CmdHistory;
  }

  lemma TimelineGrows(timeline: seq<Happening>, more: seq<Happening>, commands: map<RequestId, Cmd>)
    requires TimelineOk(timeline, commands)
    requires forall k :: 0 <= k < |more| ==> !more[k].TransportEntered? && !more[k].ConfirmationRead?
    ensures TimelineOk(timeline + more, commands)
  {
    forall m | 0 <= m < |timeline + more| ensures HappeningOk(commands, (timeline + more)[m], m) {
      if m < |timeline| {
        assert HappeningOk(commands, timeline[m], m);
      } else {
        assert (timeline + more)[m] == more[m - |timeline|];
      }
    }
    hide HappeningOk;
  }

  lemma WatchesGrow(timeline: seq<Happening>, more: seq<Happening>, watches: map<nat, Watch>,
                    commands: map<RequestId, Cmd>)
    requires WatchesHistory(timeline, watches, commands)
    ensures WatchesHistory(timeline + more, watches, commands)
  {
    forall id | id in watches ensures WatchHistory(timeline + more, id, watches[id], commands) {
      WatchHistoryGrows(timeline, more, id, watches[id], commands, commands);
    }
    hide WatchHistory;
  }

  lemma FoundTracks(w: World, requestId: RequestId, o: Watch)
    requires LocalInv(w) && HistoryInv(w) && requestId in w.held
    requires o.request == requestId && o.session == w.held[requestId] && o.foundAt == |w.timeline|
    ensures Tracks(o, w.commands)
  {
    hide WatchOk, CmdLogged, WatchHistory, HappeningOk, HasStatus, TokenOk, Cmd.Script;
    assert CmdOk(w.commands[requestId], w.processes);
    assert CmdHistory(w.timeline, w.commands[requestId]);
  }

  lemma FindKeepsHistory(w: World, id: nat, requestId: RequestId)
    requires LocalInv(w) && HistoryInv(w)
    ensures HistoryInv(DoWatch(w, FindHold(id, requestId)))
  {
    hide Cmd.Script, Watch.Script, HistoryInv, CmdOk, WatchLogged, Tracks;
    var n := DoWatch(w, FindHold(id, requestId));
    if n != w {
      var o2 := n.watches[id];
      assert WatchOk(id, w.watches[id], w.processes);
      FoundTracks(w, requestId, o2);
      assert WatchHistory(n.timeline, id, o2, w.commands);
      assert w.watches[id].proof == NoProof;
      hide LocalInv, WatchOk;
      WatchAssembles(w, n, id, o2, [HoldFound(id)]);
    }
  }

  lemma OneWatchHistory(w: World, id: nat)
    requires HistoryInv(w) && id in w.watches
    ensures WatchHistory(w.timeline, id, w.watches[id], w.commands)
  {
    hide WatchHistory, HappeningOk, CmdHistory, HeldOk, TokenOk;
  }

  lemma OneWatchShape(w: World, id: nat)
    requires LocalInv(w) && id in w.watches
    ensures WatchShape(w.watches[id])
  {
    assert WatchOk(id, w.watches[id], w.processes);
    hide CmdOk, WatchShape, WatchLogged;
  }

  lemma ObserverReadKeepsHistory(w: World, id: nat)
    requires LocalInv(w) && HistoryInv(w)
    ensures HistoryInv(DoWatch(w, ObserverReads(id)))
  {
    hide Cmd.Script, Watch.Script, CmdOk, WatchLogged, HasStatus, HappeningOk, Tracks;
    var n := DoWatch(w, ObserverReads(id));
    if n != w {
      var o := w.watches[id];
      assert WatchOk(id, o, w.processes);
      assert WatchHistory(w.timeline, id, o, w.commands);
      var o2 := AfterObserverRead(o, w.tv.Session(), |w.timeline|);
      SameTracks(o, o2, w.commands);
      assert WatchHistory(n.timeline, id, o2, w.commands);
      hide HistoryInv;
      WatchAssembles(w, n, id, o2, [ReportedToObserver(id, w.tv.Session())]);
    }
  }

  lemma SameTracks(o: Watch, o2: Watch, commands: map<RequestId, Cmd>)
    requires o2.request == o.request && o2.session == o.session && o2.foundAt == o.foundAt
    ensures Tracks(o, commands) == Tracks(o2, commands)
  {
  }

  lemma QuietWatchKeepsHistory(w: World, s: Step)
    requires LocalInv(w) && HistoryInv(w) && (s.ObserverReadFails? || s.ObserverTimesOut?)
    ensures HistoryInv(DoWatch(w, s))
  {
    hide LocalInv, HistoryInv, DoWatch, WatchHistory;
    var n := DoWatch(w, s);
    if n != w {
      DoWatchFrame(w, s);
      var o, o2 := w.watches[s.observer], n.watches[s.observer];
      OneWatchShape(w, s.observer);
      OneWatchHistory(w, s.observer);
      QuietWatchIs(w, s);
      SameWatchHistory(w.timeline, s.observer, o, o2, w.commands);
      WatchAssembles(w, n, s.observer, o2, []);
    }
  }

  lemma QuietWatchIs(w: World, s: Step)
    requires (s.ObserverReadFails? || s.ObserverTimesOut?) && DoWatch(w, s) != w && s.observer in w.watches
    ensures var n := DoWatch(w, s);
            && n == w.(watches := w.watches[s.observer := n.watches[s.observer]], timeline := w.timeline + [])
            && SameTrail(w.watches[s.observer], n.watches[s.observer]) && w.watches[s.observer].phase != Done
  {
    assert w.timeline + [] == w.timeline;
  }

  // The observer saw nothing new, though it may have given up.
  predicate SameTrail(o: Watch, o2: Watch) {
    && o2.request == o.request && o2.session == o.session && o2.foundAt == o.foundAt
    && o2.sight == o.sight && o2.seenAt == o.seenAt
    && (o2.phase.Found? ==> o.phase.Found?) && (o2.proof == o.proof || o2.proof == GaveUp)
    && (o2.proof == o.proof ==> o2.changedAt == o.changedAt && o2.changed == o.changed)
  }

  lemma SameWatchHistory(timeline: seq<Happening>, id: nat, o: Watch, o2: Watch, commands: map<RequestId, Cmd>)
    requires WatchHistory(timeline, id, o, commands) && SameTrail(o, o2)
    ensures WatchHistory(timeline + [], id, o2, commands)
  {
    SameTracks(o, o2, commands);
    hide Tracks;
    assert timeline + [] == timeline;
  }

  // A step of one observer changes no other observer, no command and no process.
  lemma DoWatchFrame(w: World, s: Step)
    requires WatchStep(s) && DoWatch(w, s) != w
    ensures s.observer in w.watches && w.watches[s.observer].Idle() && OneWatchMoves(w, DoWatch(w, s), s.observer)
  {
    hide OneWatchMoves, Watch.Script, AfterObserverRead, AfterFailedRead;
    var o, now := w.watches[s.observer], |w.timeline|;
    ReadKeepsLog(o, w.tv.Session(), now);
    match s {
      case FindHold(id, r) =>
        OneWatchMoved(w, DoWatch(w, s), id, o.(phase := Found, request := r, session := w.held[r], foundAt := now));
      case ObserverReads(id) => OneWatchMoved(w, DoWatch(w, s), id, AfterObserverRead(o, w.tv.Session(), now));
      case ObserverReadFails(id) => OneWatchMoved(w, DoWatch(w, s), id, AfterFailedRead(o));
      case ObserverTimesOut(id) =>
        OneWatchMoved(w, DoWatch(w, s), id, o.(phase := Done, proof := if o.phase == Waiting then o.proof else GaveUp));
      case Release(id, token) => OneWatchMoved(w, DoWatch(w, s), id, o.(phase := Done, proof := SentRelease(token)));
    }
  }

  lemma ReadKeepsLog(o: Watch, session: Option<nat>, now: nat)
    ensures AfterObserverRead(o, session, now).log == o.log && AfterObserverRead(o, session, now).file == o.file
    ensures AfterFailedRead(o).log == o.log && AfterFailedRead(o).file == o.file
  {
  }

  predicate OneWatchMoves(w: World, n: World, id: nat) {
    && id in n.watches && n.watches == w.watches[id := n.watches[id]]
    && n.commands == w.commands && n.processes == w.processes && n.tv == w.tv
    && (id in w.watches ==> n.watches[id].log == w.watches[id].log && n.watches[id].file == w.watches[id].file)
  }

  lemma OneWatchMoved(w: World, n: World, id: nat, o: Watch)
    requires n.watches == w.watches[id := o] && n.commands == w.commands && n.processes == w.processes && n.tv == w.tv
    requires id in w.watches ==> o.log == w.watches[id].log && o.file == w.watches[id].file
    ensures OneWatchMoves(w, n, id)
  {
  }

  lemma ReleaseIssues(w: World, id: nat, token: Token, o2: Watch)
    requires HistoryInv(w) && id in w.watches && !w.watches[id].proof.SentRelease? && token !in w.issued
    requires o2 == w.watches[id].(phase := Done, proof := SentRelease(token))
    ensures var watches, issued := w.watches[id := o2], w.issued[token := id];
            && IssuedOk(issued, watches) && ReleasesOk(w.releases[o2.request := token], issued, watches)
            && TokensOk(issued, watches, w.commands)
  {
    hide CommandsHistory, TimelineOk, HeldOk, WatchesHistory;
  }

  lemma ReleaseKeepsHistory(w: World, id: nat, token: Token)
    requires LocalInv(w) && HistoryInv(w)
    ensures HistoryInv(DoWatch(w, Release(id, token)))
  {
    hide Cmd.Script, Watch.Script, LocalInv, Tracks, CmdHistory, HeldOk, VerifiesByNow, TokenOk, HappeningOk;
    var n := DoWatch(w, Release(id, token));
    if n != w {
      var o, o2 := w.watches[id], n.watches[id];
      OneWatchShape(w, id);
      SameTracks(o, o2, w.commands);
      OneWatchHistory(w, id);
      assert WatchHistory(w.timeline, id, o2, w.commands);
      ReleaseIssues(w, id, token, o2);
      hide WatchHistory, CommandsHistory, IssuedOk, ReleasesOk, TokensOk;
      forall x | x in n.watches ensures WatchHistory(n.timeline, x, n.watches[x], n.commands) {
        if x != id {
          OneWatchHistory(w, x);
        }
      }
    }
  }

  // ---------------------------------------------------------------- every reachable world

  predicate Inv(w: World) {
    w.tv.Consistent() && LocalInv(w) && Unstamped(w) && HistoryInv(w)
  }

  lemma ActKeepsStamps(w: World, requestId: RequestId, a: Action)
    requires LocalInv(w) && Unstamped(w)
    ensures Unstamped(DoAct(w, requestId, a)) && DoAct(w, requestId, a).tv == w.tv
  {
    hide Shape, CmdLogged, CmdStep, Cmd.Script, HeldAfter, Witnessed, WatchOk, Agrees;
    if DoAct(w, requestId, a) != w {
      ActionKeepsShape(w.commands[requestId], a, |w.timeline|);
    }
  }

  lemma NewWatchOk(wanted: Option<RequestId>, id: nat, timeline: seq<Happening>, commands: map<RequestId, Cmd>)
    ensures WatchShape(NewWatch(wanted))
    ensures WatchLogged(NewWatch(wanted), Process(ObserverRole, NEW_RECORDER))
    ensures WatchHistory(timeline, id, NewWatch(wanted), commands)
  {
    hide Tracks;
  }

  lemma StartKeepsLocal(w: World, s: Step)
    requires Inv(w) && (s.StartRemote? || s.StartObserver?)
    ensures LocalInv(Do(w, s)) && Unstamped(Do(w, s))
  {
    hide DoAct, DoRecord, DoRecordWatch, DoWatch, HistoryInv, NewWatch, LocalInv, StampsOwned;
    if s.process !in w.processes {
      if s.StartRemote? {
        NewProcessKeepsLocal(w, s.process, Process(s.role, NEW_RECORDER), w.watches);
      } else {
        NewWatchOk(s.wanted, s.process, w.timeline, w.commands);
        NewProcessKeepsLocal(w, s.process, Process(ObserverRole, NEW_RECORDER), w.watches[s.process := NewWatch(s.wanted)]);
      }
    }
  }

  lemma NewProcessKeepsLocal(w: World, process: nat, p: Process, watches: map<nat, Watch>)
    requires LocalInv(w) && Unstamped(w) && process !in w.processes && p.recorder == NEW_RECORDER
    requires watches == w.watches
             || (process in watches && watches == w.watches[process := watches[process]]
                 && WatchShape(watches[process]) && WatchLogged(watches[process], p))
    ensures LocalInv(w.(processes := w.processes[process := p], watches := watches))
    ensures Unstamped(w.(processes := w.processes[process := p], watches := watches))
  {
    hide Shape, CmdLogged, WatchShape, WatchLogged;
  }

  lemma WatchesStarted(w: World, id: nat)
    requires LocalInv(w) && id in w.watches
    ensures id in w.processes
  {
    assert WatchOk(id, w.watches[id], w.processes);
    hide CmdOk, WatchShape, WatchLogged;
  }

  lemma StartKeepsTokens(w: World, id: nat, o: Watch)
    requires HistoryInv(w) && id !in w.watches && WatchHistory(w.timeline, id, o, w.commands)
    ensures HistoryInv(w.(watches := w.watches[id := o]))
  {
    hide CommandsHistory, TimelineOk, HeldOk, WatchHistory;
  }

  lemma StartKeepsHistory(w: World, s: Step)
    requires Inv(w) && (s.StartRemote? || s.StartObserver?)
    ensures HistoryInv(Do(w, s)) && Do(w, s).tv == w.tv
  {
    hide DoAct, DoRecord, DoRecordWatch, DoWatch, LocalInv, NewWatch;
    if s.StartObserver? {
      if s.process in w.watches {
        WatchesStarted(w, s.process);
      } else {
        NewWatchOk(s.wanted, s.process, w.timeline, w.commands);
        StartKeepsTokens(w, s.process, NewWatch(s.wanted));
      }
    }
    hide CommandsHistory, TimelineOk, HeldOk, WatchesHistory, WatchHistory, WatchShape, WatchLogged, IssuedOk, ReleasesOk, TokensOk,
         Unstamped;
  }

  lemma PrepareKeepsLocal(w: World, s: Step)
    requires Inv(w) && s.Prepare?
    ensures LocalInv(Do(w, s)) && Unstamped(Do(w, s)) && Do(w, s).tv == w.tv
  {
    hide DoAct, DoRecord, DoRecordWatch, DoWatch, Shape, CmdLogged, Cmd.Script, Watch.Script, WatchesOk, HistoryInv;
    if Do(w, s) != w {
      NewCmdOk(s, w.processes);
      hide CmdOk;
    }
  }

  lemma PrepareKeepsHistory(w: World, s: Step)
    requires Inv(w) && s.Prepare?
    ensures HistoryInv(Do(w, s))
  {
    hide DoAct, DoRecord, DoRecordWatch, DoWatch, LocalInv, Unstamped, NewCmd, ArgsFit;
    var n := Do(w, s);
    if n != w {
      var c := NewCmd(s.requestId, s.process, s.command, s.order, s.gated, s.checks, s.args);
      NewCmdHistory(s, w.timeline, w.issued, w.watches);
      NewCmdKeeps(w.commands, s.requestId, c);
      hide HistoryInv;
      CommandAssembles(w, n, s.requestId, c);
    }
  }

  // A step that changes one command and nothing else that the history speaks of.
  lemma CommandAssembles(w: World, n: World, r: RequestId, c: Cmd)
    requires HistoryInv(w) && n == w.(processes := n.processes, commands := w.commands[r := c])
    requires CmdHistory(w.timeline, c) && VerifiesByNow(c, |w.timeline|) && TokenOk(w.issued, w.watches, c)
    requires forall h, m :: HappeningOk(w.commands, h, m) ==> HappeningOk(n.commands, h, m)
    requires forall o :: Tracks(o, w.commands) ==> Tracks(o, n.commands)
    requires forall held :: HeldOk(held, w.commands) ==> HeldOk(held, n.commands)
    ensures HistoryInv(n)
  {
    hide HappeningOk, CmdHistory, HeldOk, Tracks, TokenOk, VerifiesByNow, IssuedOk, ReleasesOk;
    WatchesFollow(w.timeline, w.watches, w.commands, n.commands);
    hide WatchesHistory;
  }

  lemma WatchesFollow(timeline: seq<Happening>, watches: map<nat, Watch>, commands: map<RequestId, Cmd>,
                      later: map<RequestId, Cmd>)
    requires WatchesHistory(timeline, watches, commands)
    requires forall o :: Tracks(o, commands) ==> Tracks(o, later)
    ensures WatchesHistory(timeline, watches, later)
  {
    hide Tracks;
  }

  lemma NewCmdKeeps(commands: map<RequestId, Cmd>, r: RequestId, c: Cmd)
    requires r !in commands
    ensures forall h, m :: HappeningOk(commands, h, m) ==> HappeningOk(commands[r := c], h, m)
    ensures forall o :: Tracks(o, commands) ==> Tracks(o, commands[r := c])
    ensures forall held :: HeldOk(held, commands) ==> HeldOk(held, commands[r := c])
  {
    hide HasStatus, Entered, Verifies;
  }

  lemma NewCmdHistory(s: Step, timeline: seq<Happening>, issued: map<Token, nat>, watches: map<nat, Watch>)
    requires s.Prepare?
    ensures var c := NewCmd(s.requestId, s.process, s.command, s.order, s.gated, s.checks, s.args);
            CmdHistory(timeline, c) && VerifiesByNow(c, |timeline|) && TokenOk(issued, watches, c)
  {
  }

  lemma StepKeepsInv(w: World, s: Step)
    requires Inv(w)
    ensures Inv(Do(w, s))
  {
    hide LocalInv, HistoryInv, Unstamped, DoAct, DoRecord, DoRecordWatch, DoWatch;
    match s
    case TvChanges(_) =>
      TvKeepsInv(w, s);
    case StartRemote(_, _) =>
      StartKeepsLocal(w, s);
      StartKeepsHistory(w, s);
    case StartObserver(_, _) =>
      StartKeepsLocal(w, s);
      StartKeepsHistory(w, s);
    case Prepare(_, _, _, _, _, _, _) =>
      PrepareKeepsLocal(w, s);
      PrepareKeepsHistory(w, s);
    case Act(r, a) =>
      ActKeepsLocal(w, r, a);
      ActKeepsStamps(w, r, a);
      ActKeepsHistory(w, r, a);
    case RecordCommand(r, m, e) =>
      RecordKeepsLocal(w, r, m, e);
      RecordKeepsHistory(w, r, m, e);
      RecordKeepsTv(w, s);
    case RecordWatch(o, m, e) =>
      RecordWatchKeepsLocal(w, o, m, e);
      RecordWatchKeepsHistory(w, o, m, e);
      RecordKeepsTv(w, s);
    case _ =>
      WatchKeepsLocal(w, s);
      WatchKeepsHistory(w, s);
  }

  lemma RecordKeepsTv(w: World, s: Step)
    requires s.RecordCommand? || s.RecordWatch?
    ensures Do(w, s).tv == w.tv
  {
    hide RecordCall, Cmd.Script, Watch.Script;
  }

  lemma TvKeepsInv(w: World, s: Step)
    requires Inv(w) && s.TvChanges?
    ensures Inv(Do(w, s))
  {
    hide DoAct, DoRecord, DoRecordWatch, DoWatch, CommandsOk, WatchesOk, CommandsHistory, TimelineOk, HeldOk, WatchesHistory,
         IssuedOk, ReleasesOk, TokensOk;
  }

  lemma RecordWatchKeepsHistory(w: World, observer: nat, wroteMarker: bool, wroteEvent: bool)
    requires HistoryInv(w)
    ensures HistoryInv(DoRecordWatch(w, observer, wroteMarker, wroteEvent))
  {
    hide RecordCall, Watch.Script, HistoryInv;
    var n := DoRecordWatch(w, observer, wroteMarker, wroteEvent);
    if n != w {
      LoggedWatchKeepsHistory(w, observer, n.watches[observer], n.processes);
    }
  }

  lemma LoggedWatchKeepsHistory(w: World, id: nat, o: Watch, processes: map<nat, Process>)
    requires HistoryInv(w) && id in w.watches
    requires o == w.watches[id].(recorded := o.recorded, log := o.log, file := o.file)
    ensures HistoryInv(w.(processes := processes, watches := w.watches[id := o]))
  {
    SameTracks(w.watches[id], o, w.commands);
    OneWatchHistory(w, id);
    WatchKeepsTokens(w, id, o);
    hide CommandsHistory, TimelineOk, HeldOk, Tracks, IssuedOk, ReleasesOk, TokensOk;
    assert WatchHistory(w.timeline, id, o, w.commands);
    hide WatchHistory;
  }

  lemma WatchKeepsStamps(w: World, s: Step)
    requires WatchStep(s) && Unstamped(w)
    ensures Unstamped(DoWatch(w, s)) && DoWatch(w, s).tv == w.tv
  {
    hide Watch.Script, AfterObserverRead;
  }

  lemma WatchKeepsHistory(w: World, s: Step)
    requires LocalInv(w) && HistoryInv(w) && WatchStep(s) && Unstamped(w)
    ensures HistoryInv(DoWatch(w, s)) && Unstamped(DoWatch(w, s)) && DoWatch(w, s).tv == w.tv
  {
    hide LocalInv, HistoryInv, DoWatch, Unstamped;
    WatchKeepsStamps(w, s);
    match s {
      case FindHold(o, r) => FindKeepsHistory(w, o, r);
      case ObserverReads(o) => ObserverReadKeepsHistory(w, o);
      case ObserverReadFails(_) => QuietWatchKeepsHistory(w, s);
      case ObserverTimesOut(_) => QuietWatchKeepsHistory(w, s);
      case Release(o, t) => ReleaseKeepsHistory(w, o, t);
    }
  }

  /** Every run, whatever the interleaving, the lost writes and what the TV reports, keeps Inv. */
  lemma {:induction false} RunKeepsInv(tv: DeviceStatus, steps: seq<Step>)
    requires tv.Consistent()
    ensures Inv(Run(tv, steps))
  {
    if steps != [] {
      RunKeepsInv(tv, steps[..|steps| - 1]);
      hide Inv, Do;
      StepKeepsInv(Run(tv, steps[..|steps| - 1]), steps[|steps| - 1]);
    }
  }
}
