/** What a verdict of the offline classifier means for the run that left the evidence. */
module EvidenceTheorems {
  import opened Domain
  import opened Confirmation
  import opened CommandTrace
  import opened Evidence
  import opened AcceptanceRun
  import opened RunShape
  import opened RunInvariant

  // ---------------------------------------------------------------- evidence and the run

  /** Loaded events are events some process of the run wrote; any of them may be missing, in any
      order and any number of times. */
  predicate Genuine(w: World, loaded: seq<TraceEvent>) {
    forall e :: e in loaded ==>
      && (Remote(e.client) ==> e.requestId in w.commands && e in w.commands[e.requestId].file)
      && (e.client == ObserverRole ==> exists id :: id in w.watches && e in w.watches[id].file)
  }

  /** The events of one request that a remote wrote and that were loaded. */
  predicate RemoteEvents(w: World, loaded: seq<TraceEvent>, r: RequestId) {
    forall e :: e in loaded && e.requestId == r && Remote(e.client) ==>
      r in w.commands && e in w.commands[r].file
  }

  /** The log is the whole script, event by event. */
  predicate Faithful(log: seq<TraceEvent>, script: seq<Emission>) {
    |log| == |script| && forall k :: 0 <= k < |log| ==> EmissionOf(log[k]) == script[k]
  }

  lemma CommandFacts(w: World, r: RequestId)
    requires Inv(w) && r in w.commands
    ensures var c := w.commands[r];
            && c.id == r && Shape(c) && c.process in w.processes && Remote(w.processes[c.process].role)
            && CmdLogged(c, w.processes[c.process])
            && CmdHistory(w.timeline, c) && TokenOk(w.issued, w.watches, c)
  {
    assert CmdOk(w.commands[r], w.processes);
    hide Unstamped, WatchOk, WatchHistory, HappeningOk, HeldOk, Shape, CmdLogged, CmdHistory;
  }

  lemma WatchFacts(w: World, id: nat)
    requires Inv(w) && id in w.watches
    ensures WatchShape(w.watches[id]) && id in w.processes && WatchLogged(w.watches[id], w.processes[id])
    ensures WatchHistory(w.timeline, id, w.watches[id], w.commands)
  {
    assert WatchOk(id, w.watches[id], w.processes);
    hide Unstamped, CmdOk, WatchHistory, HappeningOk, HeldOk, WatchShape, WatchLogged, TokenOk;
  }

  /** A contiguous selection of a log that ends in a final outcome is the whole log. */
  lemma AcceptedIsWhole(stream: seq<TraceEvent>, c: Cmd, p: Process)
    requires CmdLogged(c, p)
    requires forall e :: e in stream ==> e in c.log
    requires Contiguous(stream) && stream != [] && Terminal(stream[|stream| - 1].event)
    ensures stream == c.log && c.phase == Finished && c.Idle()
  {
    hide Cmd.Script, Emitted;
    forall k | 0 <= k < |stream| ensures k < |c.log| && stream[k] == c.log[k] {
      assert stream[k] in c.log;
      var j :| 0 <= j < |c.log| && c.log[j] == stream[k];
    }
  }

  lemma WholeIsFaithful(c: Cmd, p: Process)
    requires CmdLogged(c, p) && c.Idle()
    requires forall e :: e in c.log ==> e.event != TraceIncomplete
    ensures Faithful(c.log, c.Script())
  {
    EmittedWhole(c.log);
    assert c.Script()[..c.recorded] == c.Script();
    hide Emitted, Cmd.Script, LogOk;
  }

  /** The loaded remote events of one request, wherever they came from, were stamped by its command. */
  predicate StampedEvents(w: World, loaded: seq<TraceEvent>, r: RequestId) {
    forall e :: e in loaded && e.requestId == r && Remote(e.client) ==>
      r in w.commands && e in w.commands[r].log
  }

  // What was accepted: the only non-empty remote stream, and that without a gap.
  lemma AcceptedStream(loaded: seq<TraceEvent>, r: RequestId) returns (client: Role)
    requires Acting(loaded, r).Ok?
    ensures Remote(client) && Acting(loaded, r).value == Stream(loaded, r, client)
    ensures Stream(loaded, r, if client == Ubuntu then Android else Ubuntu) == []
    ensures forall e :: e in Acting(loaded, r).value ==> e in loaded && Belongs(e, r, client)
    ensures IntegrityProblem(Acting(loaded, r).value, true) == None
  {
    client := if Stream(loaded, r, Ubuntu) != [] then Ubuntu else Android;
    StreamMembers(loaded, r, client);
    hide Stream, IntegrityProblem, CommandsOf;
  }

  /** An accepted remote stream is the request's complete log: it is its command's script, event by
      event, from the preparation to the outcome. */
  lemma AcceptedIsLog(w: World, loaded: seq<TraceEvent>, r: RequestId)
    requires Inv(w) && StampedEvents(w, loaded, r) && Acting(loaded, r).Ok?
    ensures r in w.commands && Acting(loaded, r).value == w.commands[r].log
    ensures w.commands[r].phase == Finished && w.commands[r].Idle()
    ensures Faithful(w.commands[r].log, w.commands[r].Script())
  {
    var stream := Acting(loaded, r).value;
    hide Acting, Stream, IntegrityProblem, Inv, SequenceGrows, Cmd.Script, CmdLogged, Shape, CmdHistory, TokenOk;
    var client := AcceptedStream(loaded, r);
    CompleteExactlyWhen(stream);
    assert stream[0] in stream;
    CommandFacts(w, r);
    var c := w.commands[r];
    AcceptedIsWhole(stream, c, w.processes[c.process]);
    WholeIsFaithful(c, w.processes[c.process]);
    hide Faithful;
  }

  /** From events that were written, such a stream also shows that nothing of the log was lost. */
  lemma ActingIsLog(w: World, loaded: seq<TraceEvent>, r: RequestId)
    requires Inv(w) && RemoteEvents(w, loaded, r) && Acting(loaded, r).Ok?
    ensures r in w.commands && Acting(loaded, r).value == w.commands[r].log
    ensures w.commands[r].phase == Finished && w.commands[r].Idle()
    ensures Faithful(w.commands[r].log, w.commands[r].Script())
    ensures forall e :: e in w.commands[r].log ==> e in w.commands[r].file
  {
    WrittenWasStamped(w, loaded, r);
    hide Acting, Stream, IntegrityProblem, Inv, SequenceGrows, Faithful, Contiguous;
    AcceptedIsLog(w, loaded, r);
    var client := AcceptedStream(loaded, r);
    hide Cmd.Idle;
  }

  lemma WrittenWasStamped(w: World, loaded: seq<TraceEvent>, r: RequestId)
    requires Inv(w) && RemoteEvents(w, loaded, r)
    ensures StampedEvents(w, loaded, r)
  {
    if r in w.commands {
      CommandFacts(w, r);
      hide Inv, Shape, CmdLogged, CmdHistory, TokenOk;
      FileInLog(w.commands[r], w.processes[w.commands[r].process]);
    }
  }

  lemma FileInLog(c: Cmd, p: Process)
    requires CmdLogged(c, p)
    ensures forall e :: e in c.file ==> e in c.log
  {
    hide Cmd.Script, Emitted;
  }

  // ---------------------------------------------------------------- fail-closed evidence

  lemma ActingStops(loaded: seq<TraceEvent>, r: RequestId)
    ensures !Acting(loaded, r).Ok? ==> Acting(loaded, r).NotUsable?
  {
    hide Stream, IntegrityProblem, CommandsOf;
  }

  lemma ActingWasLoaded(loaded: seq<TraceEvent>, r: RequestId)
    ensures Acting(loaded, r).Ok? ==> forall e :: e in Acting(loaded, r).value ==> e in loaded
  {
    StreamMembers(loaded, r, Ubuntu);
    StreamMembers(loaded, r, Android);
    hide Stream, IntegrityProblem, CommandsOf;
  }

  /** An event a remote stamped for a request that is not among the loaded ones, for whatever reason
      and in any pattern, blocks both verdicts on it, whatever else was loaded. */
  lemma FailClosed(tv: DeviceStatus, steps: seq<Step>, loaded: seq<TraceEvent>, r: RequestId, lost: TraceEvent)
    requires tv.Consistent()
    requires RemoteEvents(Run(tv, steps), loaded, r)
    requires r in Run(tv, steps).commands
    requires lost in Run(tv, steps).commands[r].log && lost !in loaded
    ensures ClassifyC6(loaded, r).Blocked? && ClassifyC7(loaded, r).Blocked?
  {
    hide Run, Inv, RemoteEvents, ClassifyC6, ClassifyC7, Acting;
    RunKeepsInv(tv, steps);
    if Acting(loaded, r).Ok? {
      ActingIsLog(Run(tv, steps), loaded, r);
      ActingWasLoaded(loaded, r);
    }
    UnusableBlocks(loaded, r);
  }

  lemma UnusableBlocks(loaded: seq<TraceEvent>, r: RequestId)
    ensures !Acting(loaded, r).Ok? ==> ClassifyC6(loaded, r).Blocked? && ClassifyC7(loaded, r).Blocked?
  {
    ActingStops(loaded, r);
    hide Acting;
  }

  /** In particular an event whose write failed: its file cannot supply it. */
  lemma FailedWriteBlocks(tv: DeviceStatus, steps: seq<Step>, loaded: seq<TraceEvent>, r: RequestId, lost: TraceEvent)
    requires tv.Consistent()
    requires RemoteEvents(Run(tv, steps), loaded, r)
    requires r in Run(tv, steps).commands
    requires lost in Run(tv, steps).commands[r].log && lost !in Run(tv, steps).commands[r].file
    ensures ClassifyC6(loaded, r).Blocked? && ClassifyC7(loaded, r).Blocked?
  {
    RunKeepsInv(tv, steps);
    var w := Run(tv, steps);
    CommandFacts(w, r);
    LogOwner(w.commands[r], w.processes[w.commands[r].process], lost);
    hide Run, Inv, ClassifyC6, ClassifyC7;
    FailClosed(tv, steps, loaded, r, lost);
  }

  lemma LogOwner(c: Cmd, p: Process, e: TraceEvent)
    requires CmdLogged(c, p) && e in c.log
    ensures e.requestId == c.id && e.client == p.role
  {
    hide Emitted, Cmd.Script;
  }

  // ---------------------------------------------------------------- reading a script from its events

  lemma ScriptParts(c: Cmd, e: Emission)
    requires e in c.Script()
    ensures e == Plain(CommandPrepared) || e in c.PreEvents() || e in c.SendEvents() || e in c.AnswerEvents()
            || e in c.HoldEvents() || e in c.observed || e in c.EndEvents()
  {
  }

  lemma SendOrigin(c: Cmd, e: Emission)
    requires Shape(c) && e in c.Script()
    ensures e.event == PreStatus ==> c.captured && e.session == c.target
    ensures e.event == SendAttempt ==> c.sent && e.session == c.target
    ensures e.event == TransportResponse ==> c.answered
    ensures e.event == ConfirmationStatus ==> HasStatus(c.observed)
  {
    ScriptParts(c, e);
    hide ArgsFit, BoundToTarget, Terminal, Cmd.Script;
    if e in c.observed {
      assert ReadEvent(e.event);
    }
  }

  lemma OnlyReadsHere(c: Cmd, e: Emission)
    requires OnlyReads(c.observed) && e in c.observed
    ensures ReadEvent(e.event)
  {
  }

  lemma HoldOrigin(c: Cmd, e: Emission)
    requires Shape(c) && e in c.Script()
    ensures e.event == ConfirmationReleased ==> c.hold.HoldEnded? && e.token == Some(c.hold.token)
    ensures e.event == ConfirmationHoldTimeout || e.event == ConfirmationHoldFailed ==> !c.hold.HoldEnded?
    ensures e.event != AutomaticRetry && e.event != Replay
  {
    hide ArgsFit, BoundToTarget, Terminal, Cmd.Script, OnlyReads;
    ScriptParts(c, e);
    if e in c.observed {
      OnlyReadsHere(c, e);
    }
  }

  lemma EndOrigin(c: Cmd, e: Emission)
    requires Shape(c) && e in c.Script()
    ensures e.event == CommandConfirmed ==> c.ending == ConfirmedOn(e.session)
    ensures e.event == AmbiguousResult ==> c.ending.AtSend? && !c.answered
  {
    ScriptParts(c, e);
    hide ArgsFit, BoundToTarget, Terminal, Cmd.Script;
    if e in c.observed {
      assert ReadEvent(e.event);
    }
  }

  /** What the presence of an emission in a command's script says about the command. */
  lemma EventOrigin(c: Cmd, e: Emission)
    requires Shape(c) && e in c.Script()
    ensures e.event == PreStatus ==> c.captured && e.session == c.target
    ensures e.event == SendAttempt ==> c.sent && e.session == c.target
    ensures e.event == TransportResponse ==> c.answered
    ensures e.event == ConfirmationReleased ==> c.hold.HoldEnded? && e.token == Some(c.hold.token)
    ensures e.event == ConfirmationStatus ==> HasStatus(c.observed)
    ensures e.event == CommandConfirmed ==> c.ending == ConfirmedOn(e.session)
    ensures e.event == AmbiguousResult ==> c.ending.AtSend? && !c.answered
    ensures e.event != AutomaticRetry && e.event != Replay
    ensures e.event == ConfirmationHoldTimeout || e.event == ConfirmationHoldFailed ==> !c.hold.HoldEnded?
  {
    hide Shape, Cmd.Script;
    SendOrigin(c, e);
    HoldOrigin(c, e);
    EndOrigin(c, e);
  }

  /** The script of a command whose hold was released, position by position. */
  lemma ReleasedScript(c: Cmd)
    requires Shape(c) && c.hold.HoldEnded?
    ensures TargetsSession(c.command) && c.captured && c.target.Some?
    ensures var s := c.Script();
            && |s| == 6 + |c.observed| + |c.EndEvents()|
            && s[0] == Plain(CommandPrepared) && s[1] == OnSession(PreStatus, c.target)
            && s[2] == OnSession(SendAttempt, c.target) && s[3] == OnSession(TransportResponse, c.target)
            && s[4] == OnSession(ConfirmationHeld, c.target)
            && s[5] == Emission(ConfirmationReleased, c.target, None, Some(c.hold.token))
            && s[6..6 + |c.observed|] == c.observed
  {
    hide ArgsFit, BoundToTarget, Cmd.EndEvents, OnlyReads;
    assert c.PreEvents() == [OnSession(PreStatus, c.target)];
    assert c.SendEvents() == [OnSession(SendAttempt, c.target)];
    assert c.AnswerEvents() == [OnSession(TransportResponse, c.target)];
    assert c.HoldEvents() == [OnSession(ConfirmationHeld, c.target),
                              Emission(ConfirmationReleased, c.target, None, Some(c.hold.token))];
  }

  /** The script of an observer that released a hold. */
  lemma ReleaseScript(o: Watch)
    requires WatchShape(o) && o.proof.SentRelease?
    ensures var s, n := o.Script(), o.early + 1 + o.late;
            && |s| == n + 2
            && s[o.early] == OnSession(ObserverHoldSeen, Some(o.session))
            && s[n] == OnSession(IndependentSessionChange, Some(o.changed))
            && s[n + 1] == Emission(ObserverReleaseSent, None, None, Some(o.proof.token))
            && (forall k :: 0 <= k < n && k != o.early ==> s[k].event == EventName.ObserverReadFailed)
            && o.changed != o.session
  {
    assert o.SightEvents() == [OnSession(ObserverHoldSeen, Some(o.session))];
    assert |o.ProofEvents()| == 2;
  }

  lemma WatchOrigin(o: Watch, e: Emission)
    requires WatchShape(o) && e in o.Script()
    ensures e.event == ObserverReleaseSent ==> o.proof.SentRelease? && e.token == Some(o.proof.token)
  {
    assert e in FailedReads(o.early) || e in o.SightEvents() || e in FailedReads(o.late) || e in o.ProofEvents();
  }

  lemma FaithfulEvent(log: seq<TraceEvent>, script: seq<Emission>, e: TraceEvent)
    requires Faithful(log, script) && e in log
    ensures EmissionOf(e) in script
  {
    var k :| 0 <= k < |log| && log[k] == e;
    assert script[k] == EmissionOf(e);
  }

  // ---------------------------------------------------------------- C6, soundness

  /** `entered`, `returned`, `seen` and `changed` are moments of the run, in this order: the command
      entered and left the transport, bound to its captured session, once; then the TV reported that
      session to an observer, then another one, all before the first confirmation read. */
  predicate Witnesses(w: World, r: RequestId, entered: nat, returned: nat, seen: nat, changed: nat, o: nat, other: nat)
    requires r in w.commands
  {
    var target := w.commands[r].target;
    && entered < returned < seen < changed < |w.timeline|
    && target.Some? && target != Some(other)
    && w.timeline[entered] == TransportEntered(r, target)
    && w.timeline[returned] == TransportReturned(r)
    && w.timeline[seen] == ReportedToObserver(o, target)
    && w.timeline[changed] == ReportedToObserver(o, Some(other))
    && (forall m :: 0 <= m < |w.timeline| ==> EntryOnlyAt(w.timeline[m], r, m, entered))
    && (forall m :: 0 <= m < |w.timeline| ==> ReadOnlyAfter(w.timeline[m], r, m, changed))
  }

  predicate EntryOnlyAt(h: Happening, r: RequestId, m: nat, entered: nat) {
    h.TransportEntered? && h.requestId == r ==> m == entered
  }

  predicate ReadOnlyAfter(h: Happening, r: RequestId, m: nat, changed: nat) {
    h.ConfirmationRead? && h.requestId == r ==> changed < m
  }

  predicate IsReadOf(h: Happening, r: RequestId) { h.ConfirmationRead? && h.requestId == r }

  /** What C6 claims, as a fact of the run. */
  ghost predicate SwitchedBetweenSendAndConfirmation(w: World, r: RequestId) {
    && r in w.commands
    && (exists entered, returned, seen, changed, o, other :: Witnesses(w, r, entered, returned, seen, changed, o, other))
    && (exists m :: 0 <= m < |w.timeline| && IsReadOf(w.timeline[m], r))
  }

  /** A released hold alone already proves it: only an observer that saw the captured session after
      the send, and then another one, ever draws a token. */
  lemma ReleaseProves(w: World, r: RequestId)
    requires Inv(w) && r in w.commands && w.commands[r].hold.HoldEnded? && HasStatus(w.commands[r].observed)
    ensures SwitchedBetweenSendAndConfirmation(w, r)
  {
    hide Inv, Shape, CmdLogged, WatchLogged, HasStatus, Cmd.Script;
    CommandFacts(w, r);
    var c := w.commands[r];
    var id := w.issued[c.hold.token];
    IssuedFacts(w, c.hold.token);
    WatchFacts(w, id);
    var o := w.watches[id];
    assert c.answered by { ReleasedScript(c); AnsweredWhenReleased(c); }
    forall m | 0 <= m < |w.timeline|
      ensures EntryOnlyAt(w.timeline[m], r, m, c.enteredAt) && ReadOnlyAfter(w.timeline[m], r, m, o.changedAt)
    {
      TimelineFacts(w, m);
    }
    assert Witnesses(w, r, c.enteredAt, c.returnedAt, o.seenAt, o.changedAt, id, o.changed);
    assert IsReadOf(w.timeline[c.readAt], r);
  }

  lemma AnsweredWhenReleased(c: Cmd)
    requires Shape(c) && c.hold.HoldEnded?
    ensures c.answered
  {
  }

  lemma IssuedFacts(w: World, t: Token)
    requires Inv(w) && t in w.issued
    ensures w.issued[t] in w.watches && w.watches[w.issued[t]].proof == SentRelease(t)
  {
    hide LocalInv, Unstamped, CmdHistory, HappeningOk, HeldOk, WatchHistory, TokenOk;
  }

  lemma TimelineFacts(w: World, m: nat)
    requires Inv(w) && m < |w.timeline|
    ensures HappeningOk(w.commands, w.timeline[m], m)
  {
    hide LocalInv, Unstamped, CmdHistory, HappeningOk, HeldOk, WatchHistory, TokenOk;
  }

  /** The facts about the two streams that a passing C6 check used. */
  lemma C6PassFacts(acting: seq<TraceEvent>, observer: seq<TraceEvent>)
    requires CheckC6Streams(acting, observer).Ok?
    ensures exists e :: e in acting && e.event == ConfirmationReleased && e.token.Some?
                        && exists x :: x in observer && x.event == ObserverReleaseSent && x.token == e.token
    ensures Has(acting, ConfirmationStatus)
    ensures exists e :: e in acting && e.event == PreStatus && e.session.Some? && !ConfirmedOffSession(acting, e.session)
  {
    FirstIsThere(acting, PreStatus);
    FirstIsThere(acting, ConfirmationReleased);
    FirstIsThere(observer, ObserverReleaseSent);
    hide First, Has, ReadBefore, ConfirmedOffSession;
  }

  lemma C6Passes(loaded: seq<TraceEvent>, r: RequestId)
    ensures ClassifyC6(loaded, r) == Pass <==>
              && Acting(loaded, r).Ok?
              && Stream(loaded, r, ObserverRole) != []
              && IntegrityProblem(Stream(loaded, r, ObserverRole), false) == None
              && CheckC6Streams(Acting(loaded, r).value, Stream(loaded, r, ObserverRole)).Ok?
  {
    hide Acting, Stream, IntegrityProblem, CheckC6Streams;
  }

  /** Soundness: when C6 passes on genuine evidence of any run, the TV reported the captured session
      after the send had returned, and then another session before the command's first confirmation
      read; the command was sent once, to the captured session. No clock is compared. */
  lemma C6Soundness(tv: DeviceStatus, steps: seq<Step>, loaded: seq<TraceEvent>, r: RequestId)
    requires tv.Consistent()
    requires Genuine(Run(tv, steps), loaded)
    requires ClassifyC6(loaded, r) == Pass
    ensures SwitchedBetweenSendAndConfirmation(Run(tv, steps), r)
  {
    hide Run, Inv, CheckC6Streams, Acting, Stream, ClassifyC6, Faithful, Shape, CmdLogged, CmdHistory, TokenOk, Cmd.Script,
         ConfirmedOffSession, SwitchedBetweenSendAndConfirmation, HasStatus, IntegrityProblem;
    RunKeepsInv(tv, steps);
    var w := Run(tv, steps);
    assert RemoteEvents(w, loaded, r);
    C6Passes(loaded, r);
    ActingIsLog(w, loaded, r);
    var c := w.commands[r];
    C6PassFacts(c.log, Stream(loaded, r, ObserverRole));
    var e :| e in c.log && e.event == ConfirmationReleased && e.token.Some?;
    var x :| x in c.log && x.event == ConfirmationStatus;
    CommandFacts(w, r);
    FaithfulEvent(c.log, c.Script(), e);
    FaithfulEvent(c.log, c.Script(), x);
    EventOrigin(c, EmissionOf(e));
    EventOrigin(c, EmissionOf(x));
    ReleaseProves(w, r);
  }

  // ---------------------------------------------------------------- C6, exactly

  /** The complete evidence of one request and its one observer: nothing lost, each event loaded
      once, in any order; events of other requests may be loaded too. */
  predicate CompleteEvidence(w: World, loaded: seq<TraceEvent>, r: RequestId, o: nat)
    requires r in w.commands && o in w.watches && w.commands[r].process in w.processes
  {
    var c, watch, role := w.commands[r], w.watches[o], w.processes[w.commands[r].process].role;
    && c.phase == Finished && c.Idle() && NothingLost(c.log)
    && multiset(Select(loaded, r, role)) == multiset(c.log)
    && Select(loaded, r, if role == Ubuntu then Android else Ubuntu) == []
    && watch.request == r && watch.Idle() && NothingLost(watch.log)
    && multiset(Select(loaded, r, ObserverRole)) == multiset(watch.log)
  }

  predicate NothingLost(log: seq<TraceEvent>) {
    forall e :: e in log ==> e.event != TraceIncomplete
  }

  lemma LogIsContiguous(c: Cmd, p: Process)
    requires CmdLogged(c, p)
    ensures Contiguous(c.log) && SequenceGrows(c.log)
    ensures forall e :: e in c.log ==> e.command == Some(c.command) && e.order == c.order && e.client == p.role
                                       && e.requestId == c.id
  {
    hide Emitted, Cmd.Script;
  }

  lemma FinishedLogEnds(c: Cmd, p: Process)
    requires Shape(c) && CmdLogged(c, p) && c.phase == Finished && Faithful(c.log, c.Script())
    ensures c.log != [] && Terminal(c.log[|c.log| - 1].event)
    ensures forall k :: 0 <= k < |c.log| - 1 ==> !Terminal(c.log[k].event)
  {
    ScriptEvents(c);
    assert |c.Script()| > 0;
    assert EmissionOf(c.log[|c.log| - 1]) == c.Script()[|c.Script()| - 1];
    hide Shape, Cmd.Script, Emitted, LogOk;
  }

  lemma OnlyCommand(log: seq<TraceEvent>, command: Command)
    requires log != [] && forall e :: e in log ==> e.command == Some(command)
    ensures CommandsOf(log) == {command} && |CommandsOf(log)| == 1
  {
    assert log[0] in log;
  }

  /** A loaded selection that is exactly a log sorts to it. */
  lemma StreamIsLog(loaded: seq<TraceEvent>, r: RequestId, role: Role, log: seq<TraceEvent>)
    requires multiset(Select(loaded, r, role)) == multiset(log) && Contiguous(log)
    ensures Stream(loaded, r, role) == log
  {
    SortSorts(Select(loaded, r, role));
    hide Select, Contiguous, Sorted;
    SortedIsLog(Stream(loaded, r, role), log);
  }

  /** Complete evidence of a finished command is accepted as its acting stream. */
  lemma CompleteIsActing(w: World, loaded: seq<TraceEvent>, r: RequestId, c: Cmd, p: Process)
    requires Inv(w) && r in w.commands && c == w.commands[r] && c.process in w.processes && p == w.processes[c.process]
    requires c.phase == Finished && c.Idle() && NothingLost(c.log)
    requires multiset(Select(loaded, r, p.role)) == multiset(c.log)
    requires Select(loaded, r, if p.role == Ubuntu then Android else Ubuntu) == []
    ensures Acting(loaded, r) == Ok(c.log) && Faithful(c.log, c.Script())
    ensures Shape(c) && CmdLogged(c, p)
  {
    hide Inv, Shape, CmdLogged, Cmd.Script, CmdHistory, TokenOk, Faithful, Select, Contiguous, SequenceGrows;
    CommandFacts(w, r);
    WholeIsFaithful(c, p);
    LogIsContiguous(c, p);
    FinishedLogEnds(c, p);
    StreamIsLog(loaded, r, p.role, c.log);
    CompleteExactlyWhen(c.log);
    OnlyCommand(c.log, c.command);
    assert Stream(loaded, r, if p.role == Ubuntu then Android else Ubuntu) == [];
    hide Stream, IntegrityProblem, CommandsOf, Terminal;
  }

  lemma WatchLogWhole(o: Watch, p: Process)
    requires WatchLogged(o, p) && o.Idle() && NothingLost(o.log)
    ensures Contiguous(o.log) && SequenceGrows(o.log) && Faithful(o.log, o.Script())
  {
    EmittedWhole(o.log);
    assert o.Script()[..o.recorded] == o.Script();
    hide Emitted, Watch.Script;
  }

  /** The observer's complete stream, loaded in any order, is its log and has no gap. */
  lemma CompleteObserver(w: World, loaded: seq<TraceEvent>, r: RequestId, id: nat)
    requires Inv(w) && id in w.watches
    requires w.watches[id].Idle() && NothingLost(w.watches[id].log)
    requires multiset(Select(loaded, r, ObserverRole)) == multiset(w.watches[id].log)
    ensures Stream(loaded, r, ObserverRole) == w.watches[id].log
    ensures IntegrityProblem(w.watches[id].log, false) == None
    ensures Faithful(w.watches[id].log, w.watches[id].Script()) && WatchShape(w.watches[id])
    ensures Contiguous(w.watches[id].log)
  {
    WatchFacts(w, id);
    var o := w.watches[id];
    hide Inv, WatchLogged, WatchShape, WatchHistory, Emitted, LogOk, Watch.Script, Faithful;
    WatchLogWhole(o, w.processes[id]);
    SortSorts(Select(loaded, r, ObserverRole));
    SortedIsLog(Stream(loaded, r, ObserverRole), o.log);
    hide Stream, Select, Contiguous, SequenceGrows, Sorted;
  }

  lemma {:induction false} FaithfulAt(log: seq<TraceEvent>, script: seq<Emission>, name: EventName, k: nat)
    requires Faithful(log, script) && Contiguous(log) && k < |script| && script[k].event == name
    requires forall j :: 0 <= j < k ==> script[j].event != name
    ensures First(log, name) == Ok(log[k]) && log[k].index == k && EmissionOf(log[k]) == script[k]
  {
    assert forall j :: 0 <= j < k ==> EmissionOf(log[j]) == script[j];
    FirstAt(log, name, k);
  }

  lemma {:induction false} HasNot(log: seq<TraceEvent>, script: seq<Emission>, name: EventName)
    requires Faithful(log, script) && forall e :: e in script ==> e.event != name
    ensures !Has(log, name)
  {
    forall e | e in log ensures e.event != name {
      FaithfulEvent(log, script, e);
    }
  }

  /** How the script of a released command begins. */
  predicate HeldOpening(script: seq<Emission>, target: Option<nat>, token: Token) {
    && |script| >= 6
    && script[0] == Plain(CommandPrepared) && script[1] == OnSession(PreStatus, target)
    && script[2] == OnSession(SendAttempt, target) && script[3] == OnSession(TransportResponse, target)
    && script[4] == OnSession(ConfirmationHeld, target)
    && script[5] == Emission(ConfirmationReleased, target, None, Some(token))
  }

  lemma {:induction false} OpeningPasses(log: seq<TraceEvent>, script: seq<Emission>, target: Option<nat>, token: Token)
    requires Contiguous(log) && Faithful(log, script) && HeldOpening(script, target, token)
    ensures |log| > 5 && log[1].session == target && log[5].token == Some(token)
    ensures First(log, PreStatus) == Ok(log[1]) && log[1].index == 1
    ensures First(log, SendAttempt) == Ok(log[2]) && log[2].index == 2 && log[2].session == target
    ensures First(log, TransportResponse) == Ok(log[3]) && log[3].index == 3
    ensures First(log, ConfirmationHeld) == Ok(log[4]) && log[4].index == 4 && log[4].session == target
    ensures First(log, ConfirmationReleased) == Ok(log[5]) && log[5].index == 5
  {
    hide First, Faithful, Contiguous;
    FaithfulLength(log, script);
    FaithfulAt(log, script, PreStatus, 1);
    FaithfulAt(log, script, SendAttempt, 2);
    FaithfulAt(log, script, TransportResponse, 3);
    FaithfulAt(log, script, ConfirmationHeld, 4);
    FaithfulAt(log, script, ConfirmationReleased, 5);
  }

  /** A released, verified and not session-ended command records no failed hold and confirms nothing else. */
  lemma {:induction false} ReleasedRecordsNoFailure(c: Cmd, log: seq<TraceEvent>)
    requires Shape(c) && c.hold.HoldEnded? && Faithful(log, c.Script()) && c.ending != ConfirmedOn(None)
    ensures !Has(log, ConfirmationHoldTimeout) && !Has(log, ConfirmationHoldFailed)
    ensures !ConfirmedOffSession(log, c.target)
  {
    hide Has, ConfirmedOffSession, Faithful, Shape, Cmd.Script;
    ReleasedEvents(c);
    HasNot(log, c.Script(), ConfirmationHoldTimeout);
    HasNot(log, c.Script(), ConfirmationHoldFailed);
    ConfirmedOnlyOn(log, c.Script(), c.target);
  }

  lemma {:induction false} ReleasedReadsAfter(c: Cmd, log: seq<TraceEvent>)
    requires Shape(c) && c.hold.HoldEnded? && Contiguous(log) && Faithful(log, c.Script()) && HasStatus(c.observed)
    ensures Has(log, ConfirmationStatus) && !ReadBefore(log, 5)
    ensures c.target.Some? && HeldOpening(c.Script(), c.target, c.hold.token)
  {
    hide Has, HasStatus, ReadBefore, Faithful, Contiguous, Shape, Cmd.EndEvents, Cmd.Script;
    ReleasedScript(c);
    StatusAfter(c.observed, log, c.Script());
  }

  lemma ReleasedEvents(c: Cmd)
    requires Shape(c) && c.hold.HoldEnded? && c.ending != ConfirmedOn(None)
    ensures forall e :: e in c.Script() ==>
              && e.event != ConfirmationHoldTimeout && e.event != ConfirmationHoldFailed
              && (e.event == CommandConfirmed ==> e.session == c.target)
  {
    ConfirmedOnTarget(c);
    hide Shape, Cmd.Script, HasStatus;
    forall e | e in c.Script()
      ensures e.event != ConfirmationHoldTimeout && e.event != ConfirmationHoldFailed
              && (e.event == CommandConfirmed ==> e.session == c.target)
    {
      EventOrigin(c, e);
    }
  }

  lemma ConfirmedOnTarget(c: Cmd)
    requires Shape(c) && c.hold.HoldEnded? && c.ending != ConfirmedOn(None)
    ensures c.ending.ConfirmedOn? ==> c.ending.session == c.target
  {
    hide ArgsFit, BoundToTarget, OnlyReads;
  }

  lemma {:induction false} StatusAfter(observed: seq<Emission>, log: seq<TraceEvent>, script: seq<Emission>)
    requires Faithful(log, script) && Contiguous(log) && HasStatus(observed)
    requires |script| >= 6 + |observed| && script[6..6 + |observed|] == observed
    requires forall k :: 0 <= k < 6 ==> script[k].event != ConfirmationStatus
    ensures Has(log, ConfirmationStatus) && !ReadBefore(log, 5)
  {
    var e :| e in observed && e.event == ConfirmationStatus;
    var k :| 0 <= k < |observed| && observed[k] == e;
    assert script[6 + k] == e && EmissionOf(log[6 + k]) == e;
    assert log[6 + k] in log && log[6 + k].event == ConfirmationStatus;
    forall x | x in log ensures x.event == ConfirmationStatus ==> x.index >= 6 {
      var j :| 0 <= j < |log| && log[j] == x;
      assert EmissionOf(log[j]) == script[j];
    }
  }

  lemma {:induction false} ConfirmedOnlyOn(log: seq<TraceEvent>, script: seq<Emission>, session: Option<nat>)
    requires Faithful(log, script)
    requires forall e :: e in script && e.event == CommandConfirmed ==> e.session == session
    ensures !ConfirmedOffSession(log, session)
  {
    forall e | e in log ensures e.event == CommandConfirmed ==> e.session == session {
      FaithfulEvent(log, script, e);
    }
  }

  /** An observer that released a hold passes the observer's side of C6. */
  lemma {:induction false} ObserverSidePasses(log: seq<TraceEvent>, script: seq<Emission>, early: nat, n: nat)
    requires Contiguous(log) && Faithful(log, script) && |script| == n + 2 && early < n
    requires script[early].event == ObserverHoldSeen && script[n].event == IndependentSessionChange
    requires script[n + 1].event == ObserverReleaseSent
    requires forall k :: 0 <= k < n && k != early ==> script[k].event == EventName.ObserverReadFailed
    ensures !Has(log, ObserverAlreadyChanged)
    ensures First(log, ObserverHoldSeen) == Ok(log[early]) && log[early].index == early
    ensures First(log, IndependentSessionChange) == Ok(log[n]) && log[n].index == n
    ensures First(log, ObserverReleaseSent) == Ok(log[n + 1]) && log[n + 1].index == n + 1
    ensures EmissionOf(log[early]) == script[early] && EmissionOf(log[n]) == script[n]
    ensures EmissionOf(log[n + 1]) == script[n + 1]
  {
    assert forall k :: 0 <= k < n + 2 ==> script[k].event != ObserverAlreadyChanged;
    HasNot(log, script, ObserverAlreadyChanged);
    hide First, Has;
    FaithfulAt(log, script, ObserverHoldSeen, early);
    FaithfulAt(log, script, IndependentSessionChange, n);
    FaithfulAt(log, script, ObserverReleaseSent, n + 1);
  }

  /** Both sides, put together. */
  lemma {:induction false} SidesPass(log: seq<TraceEvent>, watched: seq<TraceEvent>, early: nat, n: nat, session: Option<nat>, token: Token)
    requires |log| > 5 && |watched| > n + 1 && early < n && session.Some?
    requires First(log, PreStatus) == Ok(log[1]) && log[1].index == 1 && log[1].session == session
    requires First(log, SendAttempt) == Ok(log[2]) && log[2].index == 2 && log[2].session == session
    requires First(log, TransportResponse) == Ok(log[3]) && log[3].index == 3
    requires First(log, ConfirmationHeld) == Ok(log[4]) && log[4].index == 4 && log[4].session == session
    requires First(log, ConfirmationReleased) == Ok(log[5]) && log[5].index == 5 && log[5].token == Some(token)
    requires !Has(log, ConfirmationHoldTimeout) && !Has(log, ConfirmationHoldFailed)
    requires Has(log, ConfirmationStatus) && !ReadBefore(log, 5) && !ConfirmedOffSession(log, session)
    requires !Has(watched, ObserverAlreadyChanged)
    requires First(watched, ObserverHoldSeen) == Ok(watched[early]) && watched[early].index == early
    requires First(watched, IndependentSessionChange) == Ok(watched[n]) && watched[n].index == n
    requires First(watched, ObserverReleaseSent) == Ok(watched[n + 1]) && watched[n + 1].index == n + 1
    requires watched[early].session == session && watched[n].session.Some? && watched[n].session != session
    requires watched[n + 1].token == Some(token)
    ensures CheckC6Streams(log, watched).Ok?
  {
    hide First, Has, ReadBefore, ConfirmedOffSession;
  }

  lemma {:induction false} StreamsPass(c: Cmd, log: seq<TraceEvent>, o: Watch, watched: seq<TraceEvent>)
    requires Shape(c) && c.hold.HoldEnded? && Contiguous(log) && Faithful(log, c.Script())
    requires HasStatus(c.observed) && c.ending != ConfirmedOn(None)
    requires WatchShape(o) && o.proof == SentRelease(c.hold.token) && Contiguous(watched) && Faithful(watched, o.Script())
    requires c.target == Some(o.session)
    ensures CheckC6Streams(log, watched).Ok? && watched != []
  {
    hide First, Has, ReadBefore, ConfirmedOffSession, HasStatus, CheckC6Streams, Contiguous, Faithful, Shape, WatchShape,
         Cmd.Script, Watch.Script;
    ReleasedReadsAfter(c, log);
    ReleasedRecordsNoFailure(c, log);
    OpeningPasses(log, c.Script(), c.target, c.hold.token);
    ReleaseScript(o);
    FaithfulLength(watched, o.Script());
    ObserverSidePasses(watched, o.Script(), o.early, o.early + 1 + o.late);
    SidesPass(log, watched, o.early, o.early + 1 + o.late, c.target, c.hold.token);
  }

  lemma FaithfulLength(log: seq<TraceEvent>, script: seq<Emission>)
    requires Faithful(log, script)
    ensures |log| == |script|
  {
  }

  /** The condition under which complete evidence passes, in terms of the run alone. */
  predicate ReleasedByProofAndRead(w: World, r: RequestId, o: nat)
    requires r in w.commands && o in w.watches
  {
    var c := w.commands[r];
    && c.hold.HoldEnded? && w.watches[o].proof == SentRelease(c.hold.token)
    && (exists m :: 0 <= m < |w.timeline| && IsReadOf(w.timeline[m], r))
    && c.ending != ConfirmedOn(None)
  }

  /** Exactness: on complete evidence of a finished command and its observer, C6 passes if and only
      if the hold was released by that observer's proof, a confirmation status was then read, and
      the command was not confirmed by the media session having ended (only stop can be). */
  lemma C6ExactlyWhen(tv: DeviceStatus, steps: seq<Step>, loaded: seq<TraceEvent>, r: RequestId, o: nat)
    requires tv.Consistent()
    requires var w := Run(tv, steps);
             r in w.commands && o in w.watches && w.commands[r].process in w.processes && CompleteEvidence(w, loaded, r, o)
    ensures ClassifyC6(loaded, r) == Pass <==> ReleasedByProofAndRead(Run(tv, steps), r, o)
  {
    hide Run;
    RunKeepsInv(tv, steps);
    var w := Run(tv, steps);
    C6ExactlyWhenIn(w, loaded, r, o);
  }

  lemma C6ExactlyWhenIn(w: World, loaded: seq<TraceEvent>, r: RequestId, id: nat)
    requires Inv(w)
    requires r in w.commands && id in w.watches && w.commands[r].process in w.processes && CompleteEvidence(w, loaded, r, id)
    ensures ClassifyC6(loaded, r) == Pass <==> ReleasedByProofAndRead(w, r, id)
  {
    hide Inv, Select, Stream, Acting, IntegrityProblem, CmdLogged, ClassifyC6, CheckC6Streams, ReleasedByProofAndRead, Faithful,
         Contiguous, SequenceGrows, NothingLost, Cmd.Idle, Watch.Idle, Shape, WatchShape, CmdHistory, TokenOk;
    var c, o := w.commands[r], w.watches[id];
    CompleteIsActing(w, loaded, r, c, w.processes[c.process]);
    CompleteObserver(w, loaded, r, id);
    CommandFacts(w, r);
    LogIsContiguous(c, w.processes[c.process]);
    C6Passes(loaded, r);
    if ReleasedByProofAndRead(w, r, id) {
      ReleasedPasses(w, r, id);
    }
    if CheckC6Streams(c.log, o.log).Ok? {
      PassedWasReleased(w, r, id);
    }
  }

  lemma ReleasedPasses(w: World, r: RequestId, id: nat)
    requires Inv(w) && r in w.commands && id in w.watches && w.watches[id].request == r && ReleasedByProofAndRead(w, r, id)
    requires var c, o := w.commands[r], w.watches[id];
             && Contiguous(c.log) && Faithful(c.log, c.Script()) && Contiguous(o.log) && Faithful(o.log, o.Script())
    ensures CheckC6Streams(w.commands[r].log, w.watches[id].log).Ok? && w.watches[id].log != []
  {
    hide Inv, CheckC6Streams, Contiguous, Faithful, Shape, CmdLogged, CmdHistory, TokenOk, WatchShape, WatchLogged,
         WatchHistory, Cmd.Script, Watch.Script, HasStatus, IsReadOf;
    CommandFacts(w, r);
    WatchFacts(w, id);
    ReadIffStatus(w, r);
    OnItsSession(w, r, id);
    StreamsPass(w.commands[r], w.commands[r].log, w.watches[id], w.watches[id].log);
  }

  lemma PassedWasReleased(w: World, r: RequestId, id: nat)
    requires Inv(w) && r in w.commands && id in w.watches && w.commands[r].phase == Finished
    requires var c, o := w.commands[r], w.watches[id];
             && Faithful(c.log, c.Script()) && Faithful(o.log, o.Script()) && CheckC6Streams(c.log, o.log).Ok?
    ensures ReleasedByProofAndRead(w, r, id)
  {
    hide Inv, CheckC6Streams, Faithful, Shape, CmdLogged, CmdHistory, TokenOk, WatchShape, WatchLogged, WatchHistory,
         Cmd.Script, Watch.Script, HasStatus, IsReadOf, Has, ConfirmedOffSession;
    CommandFacts(w, r);
    WatchFacts(w, id);
    ReadIffStatus(w, r);
    C6PassFacts(w.commands[r].log, w.watches[id].log);
    PassMeansReleased(w.commands[r], w.watches[id]);
  }

  lemma OnItsSession(w: World, r: RequestId, id: nat)
    requires Inv(w) && r in w.commands && id in w.watches
    requires w.watches[id].request == r && w.watches[id].proof.SentRelease?
    ensures w.commands[r].target == Some(w.watches[id].session)
  {
    WatchFacts(w, id);
    hide Inv, WatchLogged;
  }

  lemma ReadIffStatus(w: World, r: RequestId)
    requires Inv(w) && r in w.commands
    ensures HasStatus(w.commands[r].observed) <==> exists m :: 0 <= m < |w.timeline| && IsReadOf(w.timeline[m], r)
  {
    hide Inv, Shape, CmdLogged, HasStatus, TokenOk;
    CommandFacts(w, r);
    forall m | 0 <= m < |w.timeline| && IsReadOf(w.timeline[m], r) ensures HasStatus(w.commands[r].observed) {
      TimelineFacts(w, m);
    }
    if HasStatus(w.commands[r].observed) {
      assert IsReadOf(w.timeline[w.commands[r].readAt], r);
    }
  }

  lemma PassMeansReleased(c: Cmd, o: Watch)
    requires Shape(c) && WatchShape(o) && Faithful(c.log, c.Script()) && Faithful(o.log, o.Script())
    requires c.phase == Finished
    requires exists e :: e in c.log && e.event == ConfirmationReleased && e.token.Some?
                         && exists x :: x in o.log && x.event == ObserverReleaseSent && x.token == e.token
    requires Has(c.log, ConfirmationStatus)
    requires exists e :: e in c.log && e.event == PreStatus && e.session.Some? && !ConfirmedOffSession(c.log, e.session)
    ensures c.hold.HoldEnded? && o.proof == SentRelease(c.hold.token)
    ensures HasStatus(c.observed) && c.ending != ConfirmedOn(None)
  {
    var e :| e in c.log && e.event == ConfirmationReleased && e.token.Some?
             && exists x :: x in o.log && x.event == ObserverReleaseSent && x.token == e.token;
    var x :| x in o.log && x.event == ObserverReleaseSent && x.token == e.token;
    var s :| s in c.log && s.event == ConfirmationStatus;
    var pre :| pre in c.log && pre.event == PreStatus && pre.session.Some? && !ConfirmedOffSession(c.log, pre.session);
    FaithfulEvent(c.log, c.Script(), e);
    FaithfulEvent(c.log, c.Script(), s);
    FaithfulEvent(c.log, c.Script(), pre);
    FaithfulEvent(o.log, o.Script(), x);
    EventOrigin(c, EmissionOf(e));
    EventOrigin(c, EmissionOf(s));
    EventOrigin(c, EmissionOf(pre));
    WatchOrigin(o, EmissionOf(x));
    EndedOffSession(c);
  }

  lemma EndedOffSession(c: Cmd)
    requires Faithful(c.log, c.Script())
    ensures c.ending == ConfirmedOn(None) ==> exists e :: e in c.log && e.event == CommandConfirmed && e.session == None
  {
    if c.ending == ConfirmedOn(None) {
      var n := |c.Script()| - 1;
      assert c.Script()[n] == OnSession(CommandConfirmed, None);
      assert c.log[n] in c.log && EmissionOf(c.log[n]) == c.Script()[n];
    }
  }

  // ---------------------------------------------------------------- loss on the observer's side

  lemma {:induction false} FirstInPrefix(stream: seq<TraceEvent>, name: EventName, n: nat)
    requires n <= |stream| && Contiguous(stream)
    requires First(stream, name).Ok? && First(stream, name).value.index < n
    ensures First(stream[..n], name) == First(stream, name)
  {
    FirstIsThere(stream, name);
    var k := First(stream, name).value.index;
    FirstIndex(stream, name);
    assert forall j :: 0 <= j < k ==> stream[..n][j] == stream[j];
    FirstAt(stream[..n], name, k);
  }

  // In a contiguous stream the index of the first occurrence is its position.
  lemma FirstIndex(stream: seq<TraceEvent>, name: EventName)
    requires Contiguous(stream) && First(stream, name).Ok?
    ensures var k := First(stream, name).value.index;
            k < |stream| && stream[k].event == name && forall j :: 0 <= j < k ==> stream[j].event != name
  {
    FirstIsThere(stream, name);
    var e := First(stream, name).value;
    var i :| 0 <= i < |stream| && stream[i] == e;
    FirstFrom(stream, 0, name);
  }

  lemma {:induction false} FirstFrom(stream: seq<TraceEvent>, from: nat, name: EventName)
    requires from <= |stream| && First(stream[from..], name).Ok?
    ensures exists k :: from <= k < |stream| && stream[k] == First(stream[from..], name).value
                        && stream[k].event == name && forall j :: from <= j < k ==> stream[j].event != name
    decreases |stream| - from
  {
    if stream[from].event == name {
      assert stream[from] == First(stream[from..], name).value;
    } else {
      assert stream[from..][1..] == stream[from + 1..];
      FirstFrom(stream, from + 1, name);
    }
  }

  lemma OrderOfPassing(acting: seq<TraceEvent>, observer: seq<TraceEvent>)
    requires CheckC6Streams(acting, observer).Ok?
    ensures First(observer, ObserverHoldSeen).Ok? && First(observer, IndependentSessionChange).Ok?
    ensures First(observer, ObserverReleaseSent).Ok?
    ensures First(observer, ObserverHoldSeen).value.index < First(observer, ObserverReleaseSent).value.index
    ensures First(observer, IndependentSessionChange).value.index < First(observer, ObserverReleaseSent).value.index
    ensures !Has(observer, ObserverAlreadyChanged)
  {
    hide First, Has, ReadBefore, ConfirmedOffSession;
  }

  lemma CutStream(observer: seq<TraceEvent>, n: nat)
    requires n < |observer| && IntegrityProblem(observer, false) == None
    requires forall j :: 0 <= j < n ==> observer[j].event != ObserverReleaseSent
    ensures IntegrityProblem(observer[..n], false) == None
    ensures First(observer[..n], ObserverReleaseSent) == Rejected(Missing(ObserverReleaseSent))
    ensures !Has(observer, ObserverAlreadyChanged) ==> !Has(observer[..n], ObserverAlreadyChanged)
  {
    FirstIsThere(observer[..n], ObserverReleaseSent);
    hide First, Count;
    forall e | e in observer[..n] ensures e.event != ObserverReleaseSent && e in observer {
      var j :| 0 <= j < n && observer[..n][j] == e;
      assert observer[j] == e;
    }
  }

  // Only the observer's release changed: the check stops exactly there.
  lemma StopsAtRelease(acting: seq<TraceEvent>, observer: seq<TraceEvent>, cut: seq<TraceEvent>)
    requires CheckC6Streams(acting, observer).Ok?
    requires First(cut, ObserverHoldSeen) == First(observer, ObserverHoldSeen)
    requires First(cut, IndependentSessionChange) == First(observer, IndependentSessionChange)
    requires First(cut, ObserverReleaseSent) == Rejected(Missing(ObserverReleaseSent)) && !Has(cut, ObserverAlreadyChanged)
    ensures CheckC6Streams(acting, cut) == Rejected(Missing(ObserverReleaseSent))
  {
    hide First, Has, ReadBefore, ConfirmedOffSession;
  }

  /** When the observer's stream is cut before its last event, evidence that passes is judged a
      demonstrated violation (FAIL), not unusable (BLOCKED): the loss leaves no gap. */
  lemma CutObserverFails(acting: seq<TraceEvent>, observer: seq<TraceEvent>)
    requires CheckC6Streams(acting, observer).Ok? && IntegrityProblem(observer, false) == None
    ensures First(observer, ObserverReleaseSent).Ok?
    ensures var n := First(observer, ObserverReleaseSent).value.index;
            && n < |observer| && IntegrityProblem(observer[..n], false) == None
            && CheckC6Streams(acting, observer[..n]) == Rejected(Missing(ObserverReleaseSent))
  {
    OrderOfPassing(acting, observer);
    hide First, Has, CheckC6Streams, Count;
    assert Contiguous(observer);
    var n := First(observer, ObserverReleaseSent).value.index;
    FirstIndex(observer, ObserverReleaseSent);
    CutStream(observer, n);
    hide Contiguous, SequenceGrows;
    FirstInPrefix(observer, ObserverHoldSeen, n);
    FirstInPrefix(observer, IndependentSessionChange, n);
    StopsAtRelease(acting, observer, observer[..n]);
  }

  lemma StreamsDecide(acting: seq<TraceEvent>, observer: seq<TraceEvent>)
    ensures !CheckC6Streams(acting, observer).NotUsable?
  {
    hide First, Has, ReadBefore, ConfirmedOffSession;
    FirstDecides(acting);
    FirstDecides(observer);
  }

  lemma FirstDecides(stream: seq<TraceEvent>)
    ensures forall name :: !First(stream, name).NotUsable?
  {
    forall name ensures !First(stream, name).NotUsable? {
      FirstIsThere(stream, name);
    }
    hide First;
  }

  /** With an accepted remote stream only the observer's can block C6. */
  lemma BlockedByObserver(loaded: seq<TraceEvent>, r: RequestId)
    requires Acting(loaded, r).Ok?
    ensures ClassifyC6(loaded, r).Blocked? <==>
              var observer := Stream(loaded, r, ObserverRole);
              observer == [] || IntegrityProblem(observer, false).Some?
  {
    StreamsDecide(Acting(loaded, r).value, Stream(loaded, r, ObserverRole));
    hide Acting, Stream, IntegrityProblem, CheckC6Streams;
  }

  /** Of events of a contiguous log, a gapless stream is a prefix. */
  lemma GaplessIsPrefix(kept: seq<TraceEvent>, log: seq<TraceEvent>)
    requires Contiguous(log) && SequenceGrows(log) && forall e :: e in kept ==> e in log
    ensures IntegrityProblem(kept, false) == None <==> kept <= log && forall e :: e in kept ==> e.event != TraceIncomplete
  {
    hide Count;
    if Contiguous(kept) {
      forall k | 0 <= k < |kept| ensures k < |log| && kept[k] == log[k] {
        assert kept[k] in log;
        var j :| 0 <= j < |log| && log[j] == kept[k];
      }
      assert |kept| <= |log| by {
        if |kept| > 0 {
          var m := |kept| - 1;
          assert kept[m] == kept[m] && m < |log|;
        }
      }
    }
  }

  lemma WatchLogGapless(o: Watch, p: Process)
    requires WatchLogged(o, p)
    ensures Contiguous(o.log) && SequenceGrows(o.log)
  {
    hide Emitted, Watch.Script;
  }

  /** Which losses on the observer's side are noticed, exactly: with the remote's stream accepted and
      any part of the observer's log loaded, C6 is BLOCKED if and only if nothing is left of that log,
      or what is left is not its beginning, or it reports a loss itself. A loss goes unnoticed if and
      only if it is a tail that leaves something. */
  lemma ObserverLossBlocksExactlyWhen(tv: DeviceStatus, steps: seq<Step>, loaded: seq<TraceEvent>, r: RequestId, o: nat)
    requires tv.Consistent() && o in Run(tv, steps).watches && Acting(loaded, r).Ok?
    requires forall e :: e in loaded && Belongs(e, r, ObserverRole) ==> e in Run(tv, steps).watches[o].log
    ensures var kept := Stream(loaded, r, ObserverRole);
            ClassifyC6(loaded, r).Blocked? <==>
              || kept == [] || !(kept <= Run(tv, steps).watches[o].log)
              || exists e :: e in kept && e.event == TraceIncomplete
  {
    hide Run, Inv, Acting, ClassifyC6, Stream, IntegrityProblem, WatchLogged, WatchShape, WatchHistory, Contiguous, SequenceGrows;
    RunKeepsInv(tv, steps);
    var w := Run(tv, steps);
    WatchFacts(w, o);
    WatchLogGapless(w.watches[o], w.processes[o]);
    BlockedByObserver(loaded, r);
    StreamMembers(loaded, r, ObserverRole);
    GaplessIsPrefix(Stream(loaded, r, ObserverRole), w.watches[o].log);
  }

  /** An unnoticed loss is judged: a tail cut off the log of an observer that released is a FAIL. */
  lemma TailLossFails(tv: DeviceStatus, steps: seq<Step>, loaded: seq<TraceEvent>, r: RequestId, o: nat, n: nat)
    requires tv.Consistent() && o in Run(tv, steps).watches && Acting(loaded, r).Ok?
    requires var watch := Run(tv, steps).watches[o];
             watch.proof.SentRelease? && watch.Idle() && NothingLost(watch.log) && 0 < n < |watch.log|
             && Stream(loaded, r, ObserverRole) == watch.log[..n]
    ensures ClassifyC6(loaded, r).Fail?
  {
    hide Run, Inv, Acting, ClassifyC6, Stream, CheckC6Streams, WatchLogged, WatchShape, WatchHistory, Watch.Script, Watch.Idle,
         Faithful, IntegrityProblem, Contiguous, SequenceGrows;
    RunKeepsInv(tv, steps);
    var w := Run(tv, steps);
    var watch := w.watches[o];
    WatchFacts(w, o);
    WatchLogGapless(watch, w.processes[o]);
    WatchLogWhole(watch, w.processes[o]);
    ReleaseIsLast(watch, n);
    StreamMembers(loaded, r, ObserverRole);
    BlockedByObserver(loaded, r);
    assert forall e :: e in watch.log[..n] ==> e in watch.log;
    GaplessIsPrefix(watch.log[..n], watch.log);
    C6Passes(loaded, r);
    if CheckC6Streams(Acting(loaded, r).value, watch.log[..n]).Ok? {
      C6PassFacts(Acting(loaded, r).value, watch.log[..n]);
    }
  }

  // Before its last event the log of an observer that released names no release.
  lemma ReleaseIsLast(o: Watch, n: nat)
    requires WatchShape(o) && o.proof.SentRelease? && Faithful(o.log, o.Script()) && n < |o.log|
    ensures forall e :: e in o.log[..n] ==> e.event != ObserverReleaseSent
  {
    ReleaseScript(o);
    hide Watch.Script, WatchShape;
    forall e | e in o.log[..n] ensures e.event != ObserverReleaseSent {
      var j :| 0 <= j < n && o.log[..n][j] == e;
      assert EmissionOf(o.log[j]) == o.Script()[j];
    }
  }

  // A passing run's own logs pass, whatever part of them is loaded.
  lemma LogsPass(w: World, r: RequestId, id: nat)
    requires Inv(w) && r in w.commands && id in w.watches && ReleasedByProofAndRead(w, r, id) && w.watches[id].request == r
    requires var c, o := w.commands[r], w.watches[id];
             c.phase == Finished && c.Idle() && NothingLost(c.log) && o.Idle() && NothingLost(o.log)
    ensures CheckC6Streams(w.commands[r].log, w.watches[id].log).Ok?
  {
    hide Inv, CheckC6Streams, Shape, CmdLogged, CmdHistory, TokenOk, WatchShape, WatchLogged, WatchHistory, Faithful,
         Contiguous, SequenceGrows, HasStatus, IsReadOf, Cmd.Idle, Watch.Idle;
    var c, o := w.commands[r], w.watches[id];
    ReadIffStatus(w, r);
    OnItsSession(w, r, id);
    CommandFacts(w, r);
    WatchFacts(w, id);
    WholeIsFaithful(c, w.processes[c.process]);
    LogIsContiguous(c, w.processes[c.process]);
    WatchLogWhole(o, w.processes[id]);
    StreamsPass(c, c.log, o, o.log);
  }

  lemma ReleaseAtEnd(o: Watch, log: seq<TraceEvent>)
    requires log == o.log && log != [] && WatchShape(o) && o.proof.SentRelease? && Faithful(log, o.Script()) && Contiguous(log)
    requires First(log, ObserverReleaseSent).Ok?
    ensures First(log, ObserverReleaseSent).value.index == |log| - 1
  {
    FirstIndex(log, ObserverReleaseSent);
    ReleaseIsLast(o, |log| - 1);
    var k := First(log, ObserverReleaseSent).value.index;
    hide Faithful, WatchShape, First, Contiguous, Watch.Script;
    forall j | 0 <= j < |log| - 1 ensures log[j].event != ObserverReleaseSent {
      assert log[..|log| - 1][j] == log[j];
    }
    assert log[k].event == ObserverReleaseSent;
  }

  lemma JudgedOn(loaded: seq<TraceEvent>, r: RequestId, acting: seq<TraceEvent>, observer: seq<TraceEvent>)
    requires Acting(loaded, r) == Ok(acting) && Stream(loaded, r, ObserverRole) == observer
    requires observer != [] && IntegrityProblem(observer, false) == None
    ensures ClassifyC6(loaded, r) == Verdict(CheckC6Streams(acting, observer))
  {
    hide Acting, Stream, IntegrityProblem, CheckC6Streams;
  }

  // The observer's log, and what is left of it without its release.
  lemma CutLogFails(w: World, r: RequestId, o: nat)
    requires Inv(w) && r in w.commands && o in w.watches
    requires var c, watch := w.commands[r], w.watches[o];
             && watch.proof.SentRelease? && watch.Idle() && NothingLost(watch.log) && |watch.log| > 1
             && CheckC6Streams(c.log, watch.log).Ok?
    ensures var c, kept := w.commands[r], w.watches[o].log[..|w.watches[o].log| - 1];
            IntegrityProblem(kept, false) == None && CheckC6Streams(c.log, kept) == Rejected(Missing(ObserverReleaseSent))
  {
    hide Inv, CheckC6Streams, WatchLogged, WatchShape, WatchHistory, Faithful, Contiguous, SequenceGrows, Watch.Idle, First,
         IntegrityProblem;
    var watch := w.watches[o];
    WatchFacts(w, o);
    WatchLogWhole(watch, w.processes[o]);
    GaplessLog(watch.log);
    OrderOfPassing(w.commands[r].log, watch.log);
    ReleaseAtEnd(watch, watch.log);
    CutObserverFails(w.commands[r].log, watch.log);
  }

  /** The loss of the one event an observer that released a hold recorded last: complete evidence that
      passes is without it the demonstrated violation "missing observer_release_sent". */
  lemma LostReleaseIsMissing(tv: DeviceStatus, steps: seq<Step>, loaded: seq<TraceEvent>, r: RequestId, o: nat)
    requires tv.Consistent() && r in Run(tv, steps).commands && o in Run(tv, steps).watches
    requires ReleasedByProofAndRead(Run(tv, steps), r, o) && Run(tv, steps).watches[o].request == r
    requires var c, watch := Run(tv, steps).commands[r], Run(tv, steps).watches[o];
             && c.phase == Finished && c.Idle() && NothingLost(c.log) && watch.Idle() && NothingLost(watch.log)
             && |watch.log| > 1 && Acting(loaded, r) == Ok(c.log)
             && Stream(loaded, r, ObserverRole) == watch.log[..|watch.log| - 1]
    ensures ClassifyC6(loaded, r) == Fail(Missing(ObserverReleaseSent))
  {
    hide Run, Inv, ReleasedByProofAndRead, CheckC6Streams, Acting, Stream, IntegrityProblem, ClassifyC6, Cmd.Idle, Watch.Idle,
         NothingLost;
    RunKeepsInv(tv, steps);
    var w := Run(tv, steps);
    LogsPass(w, r, o);
    ProofSent(w, r, o);
    CutLogFails(w, r, o);
    JudgedOn(loaded, r, w.commands[r].log, w.watches[o].log[..|w.watches[o].log| - 1]);
  }

  lemma ProofSent(w: World, r: RequestId, o: nat)
    requires r in w.commands && o in w.watches && ReleasedByProofAndRead(w, r, o)
    ensures w.watches[o].proof.SentRelease?
  {
    hide IsReadOf;
  }

  lemma GaplessLog(log: seq<TraceEvent>)
    requires Contiguous(log) && SequenceGrows(log) && NothingLost(log)
    ensures IntegrityProblem(log, false) == None
  {
    hide Count;
  }
}
