/** Honest acceptance runs: for every playback command, every two sessions and every token there is a
    run, from an empty world and with nothing lost, whose evidence passes C6, and which one failed
    write at its end makes fail. */
module HonestRun {
  import opened Domain
  import opened Confirmation
  import opened CommandTrace
  import opened Evidence
  import opened AcceptanceRun
  import opened RunShape
  import opened RunInvariant
  import opened EvidenceTheorems
  import opened SendEvidence

  /** A playback command and an observer of its hold, before which the TV moves to another session. */
  datatype Scene = Scene(
    command: Command, args: Expectation, order: Option<OrderId>, role: Role,
    request: RequestId, remote: nat, observer: nat, token: Token,
    before: DeviceStatus, after: DeviceStatus)
  {
    predicate Valid() {
      && TargetsSession(command) && ArgsFit(command, args) && Remote(role) && remote != observer
      && before.Consistent() && before.Session().Some?
      && (command == Seek ==> before.media.value.supportsSeek != Some(false))
      && after.Consistent() && after.Session().Some? && after.Session() != before.Session()
    }
  }

  // ---------------------------------------------------------------- runs without loss

  /** A run whose every write succeeds leads here. */
  ghost predicate Reachable(tv: DeviceStatus, w: World) {
    exists steps :: (forall s :: s in steps ==> Writes(s)) && Run(tv, steps) == w
  }

  lemma ReachableStep(tv: DeviceStatus, w: World, s: Step)
    requires Reachable(tv, w) && Writes(s)
    ensures Reachable(tv, Do(w, s))
  {
    hide Do;
    var steps :| (forall s :: s in steps ==> Writes(s)) && Run(tv, steps) == w;
    var more := steps + [s];
    assert more[..|more| - 1] == steps;
    assert Run(tv, more) == Do(w, s);
  }

  lemma ReachableFacts(tv: DeviceStatus, w: World)
    requires tv.Consistent() && Reachable(tv, w)
    ensures Inv(w) && NoLoss(w)
  {
    hide Run, Inv, NoLoss;
    var steps :| (forall s :: s in steps ==> Writes(s)) && Run(tv, steps) == w;
    RunKeepsInv(tv, steps);
    RunKeepsNoLoss(tv, steps);
  }

  predicate SameRoles(w: World, n: World) {
    n.processes.Keys == w.processes.Keys && forall p :: p in w.processes ==> n.processes[p].role == w.processes[p].role
  }

  /** What recording never changes of a command. */
  predicate Like(c: Cmd, x: Cmd) { c == x.(recorded := c.recorded, log := c.log, file := c.file) }

  /** Command `r` went to `y` and recorded all of it; the other commands are as they were. */
  predicate Became(w: World, n: World, r: RequestId, y: Cmd) {
    && r in n.commands && Like(n.commands[r], y) && n.commands[r].Idle()
    && n.commands == w.commands[r := n.commands[r]]
    && n.tv == w.tv && n.watches == w.watches && n.issued == w.issued && SameRoles(w, n)
  }

  lemma LikeSameScript(c: Cmd, x: Cmd)
    requires Like(c, x)
    ensures c.Script() == x.Script()
  {
    SameScript(x, c.recorded, c.log, c.file);
  }

  lemma RecordsOne(w: World, r: RequestId)
    requires r in w.commands && w.commands[r].process in w.processes
    requires w.commands[r].recorded < |w.commands[r].Script()|
    ensures var n := Do(w, RecordCommand(r, true, true));
            && r in n.commands && Like(n.commands[r], w.commands[r]) && n.commands[r].recorded == w.commands[r].recorded + 1
            && n.commands == w.commands[r := n.commands[r]]
            && n.tv == w.tv && n.watches == w.watches && n.issued == w.issued && SameRoles(w, n)
            && n.held == w.held && n.releases == w.releases && n.timeline == w.timeline
  {
    hide Cmd.Script, RecordCall;
  }

  lemma {:induction false} RecordsAll(tv: DeviceStatus, w: World, r: RequestId) returns (n: World)
    requires tv.Consistent() && Reachable(tv, w) && r in w.commands
    ensures Reachable(tv, n) && Became(w, n, r, w.commands[r])
    ensures n.held == w.held && n.releases == w.releases && n.timeline == w.timeline
    decreases |w.commands[r].Script()| - w.commands[r].recorded
  {
    hide Reachable, Inv, NoLoss, Cmd.Script, Shape, Do;
    ReachableFacts(tv, w);
    CommandFacts(w, r);
    hide CmdHistory, TokenOk, LogOk;
    if w.commands[r].Idle() {
      n := w;
    } else {
      RecordsOne(w, r);
      var m := Do(w, RecordCommand(r, true, true));
      ReachableStep(tv, w, RecordCommand(r, true, true));
      LikeSameScript(m.commands[r], w.commands[r]);
      n := RecordsAll(tv, m, r);
    }
  }

  /** One action, then everything it has to record. */
  lemma Acts(tv: DeviceStatus, w: World, r: RequestId, a: Action) returns (n: World)
    requires tv.Consistent() && Reachable(tv, w) && r in w.commands && Agrees(w, r, a)
    requires CmdStep(w.commands[r], a, |w.timeline|).Some?
    ensures Reachable(tv, n) && Became(w, n, r, CmdStep(w.commands[r], a, |w.timeline|).value)
    ensures n.held == HeldAfter(w, w.commands[r], a) && n.releases == ReleasesAfter(w, w.commands[r], a)
    ensures n.timeline == w.timeline + Witnessed(w.commands[r], a)
  {
    hide Reachable, CmdStep, Agrees, HeldAfter, ReleasesAfter, Witnessed, Cmd.Script;
    var m := Do(w, Act(r, a));
    ReachableStep(tv, w, Act(r, a));
    n := RecordsAll(tv, m, r);
  }

  // ---------------------------------------------------------------- the command's part

  /** The command in one of its phases, everything recorded. */
  predicate OnStage(k: Scene, c: Cmd, phase: Phase) {
    && c.id == k.request && c.process == k.remote && c.command == k.command && c.gated && c.checks && c.phase == phase
    && (!phase.Prepared? ==> c.target == k.before.Session())
    && (phase.Verifying? || phase.Finished? ==> c.hold == HoldEnded(k.token))
    && (phase.Finished? ==> c.ending.NotConfirmed?)
    && c.Idle()
  }

  /** What the command does in each phase. */
  function NextAction(k: Scene, phase: Phase): Action {
    match phase
    case Prepared => Capture(k.before)
    case Captured => Announce
    case Announced => EnterTransport
    case InTransport => TransportReturns(Accepted)
    case Responded => BeginHold
    case Holding => WriteMarker
    case Held => SeeRelease(k.token)
    case _ => BudgetSpent
  }

  function NextPhase(phase: Phase): Phase {
    match phase
    case Prepared => Captured
    case Captured => Announced
    case Announced => InTransport
    case InTransport => Responded
    case Responded => Holding
    case Holding => Held
    case Held => Verifying
    case _ => Finished
  }

  lemma NextIsStep(k: Scene, c: Cmd, phase: Phase, now: nat)
    requires k.Valid() && OnStage(k, c, phase) && !phase.Finished? && !phase.Escaped?
    ensures var y := CmdStep(c, NextAction(k, phase), now);
            y.Some? && forall n :: Like(n, y.value) && n.Idle() ==> OnStage(k, n, NextPhase(phase))
  {
    hide Cmd.Script, Bind, IdentityOf;
  }

  /** The observer in one of its phases: everything is recorded, but the release it ends with. */
  predicate Watched(k: Scene, o: Watch, phase: WatchPhase) {
    && o.wanted == Some(k.request) && o.phase == phase
    && (phase != Waiting ==> o.request == k.request && Some(o.session) == k.before.Session())
    && (phase.Done? ==> o.proof == SentRelease(k.token))
    && (if phase.Done? then o.recorded + 1 == |o.Script()| else o.Idle())
  }

  /** A moment of the run: where its command and its observer are. */
  ghost predicate At(k: Scene, w: World, phase: Phase, watch: WatchPhase) {
    && Reachable(k.before, w)
    && k.request in w.commands && OnStage(k, w.commands[k.request], phase)
    && k.observer in w.watches && Watched(k, w.watches[k.observer], watch)
  }

  lemma Advances(k: Scene, w: World, phase: Phase, watch: WatchPhase) returns (n: World)
    requires k.Valid() && At(k, w, phase, watch) && !phase.Finished? && !phase.Escaped?
    requires phase.Prepared? ==> w.tv == k.before
    requires phase.Held? ==> k.request in w.releases && w.releases[k.request] == k.token
    ensures At(k, n, NextPhase(phase), watch) && n.tv == w.tv && n.issued == w.issued && w.timeline <= n.timeline
    ensures phase.Holding? ==> k.request in n.held && Some(n.held[k.request]) == k.before.Session()
  {
    hide Reachable, Cmd.Script, Watched;
    var c, a := w.commands[k.request], NextAction(k, phase);
    NextIsStep(k, c, phase, |w.timeline|);
    assert Agrees(w, k.request, a);
    assert c.id == k.request && (phase.Holding? ==> c.target == k.before.Session());
    hide CmdStep, OnStage, Agrees, Witnessed;
    n := Acts(k.before, w, k.request, a);
  }

  // ---------------------------------------------------------------- the observer's part

  predicate LikeWatch(o: Watch, x: Watch) { o == x.(recorded := o.recorded, log := o.log, file := o.file) }

  /** Observer `o` recorded all it had to; everything else is as it was. */
  predicate WatchBecame(w: World, n: World, o: nat, y: Watch) {
    && o in n.watches && LikeWatch(n.watches[o], y) && n.watches[o].Idle()
    && n.tv == w.tv && n.commands == w.commands && n.issued == w.issued && n.held == w.held && n.releases == w.releases
    && n.timeline == w.timeline
  }

  lemma RecordsOneWatch(w: World, o: nat)
    requires o in w.watches && o in w.processes && w.watches[o].recorded < |w.watches[o].Script()|
    ensures var n := Do(w, RecordWatch(o, true, true));
            && o in n.watches && LikeWatch(n.watches[o], w.watches[o]) && n.watches[o].recorded == w.watches[o].recorded + 1
            && n.tv == w.tv && n.commands == w.commands && n.issued == w.issued && n.held == w.held && n.releases == w.releases
            && n.timeline == w.timeline
  {
    hide Watch.Script, RecordCall;
  }

  lemma {:induction false} RecordsAllWatch(tv: DeviceStatus, w: World, o: nat) returns (n: World)
    requires tv.Consistent() && Reachable(tv, w) && o in w.watches
    ensures Reachable(tv, n) && WatchBecame(w, n, o, w.watches[o])
    decreases |w.watches[o].Script()| - w.watches[o].recorded
  {
    hide Reachable, Inv, NoLoss, Watch.Script, WatchShape, Do;
    ReachableFacts(tv, w);
    WatchFacts(w, o);
    hide WatchHistory, LogOk;
    if w.watches[o].Idle() {
      n := w;
    } else {
      RecordsOneWatch(w, o);
      var m := Do(w, RecordWatch(o, true, true));
      ReachableStep(tv, w, RecordWatch(o, true, true));
      SameWatchScript(w.watches[o], m.watches[o].recorded, m.watches[o].log, m.watches[o].file);
      n := RecordsAllWatch(tv, m, o);
    }
  }

  /** Where a step left the observer, which may still have to record it. */
  predicate Goes(k: Scene, o: Watch, phase: WatchPhase) {
    o.wanted == Some(k.request) && o.phase == phase && o.request == k.request && Some(o.session) == k.before.Session()
  }

  lemma Watches(k: Scene, w: World, s: Step, phase: Phase, to: WatchPhase) returns (n: World)
    requires k.Valid() && Reachable(k.before, w) && k.request in w.commands && OnStage(k, w.commands[k.request], phase)
    requires WatchStep(s) && Do(w, s).commands == w.commands && !to.Waiting? && !to.Done?
    requires k.observer in Do(w, s).watches && Goes(k, Do(w, s).watches[k.observer], to)
    ensures At(k, n, phase, to) && n.tv == Do(w, s).tv && n.issued == Do(w, s).issued
  {
    hide Reachable, Do, OnStage, Watch.Script;
    ReachableStep(k.before, w, s);
    n := RecordsAllWatch(k.before, Do(w, s), k.observer);
  }

  lemma Finds(k: Scene, w: World) returns (n: World)
    requires k.Valid() && At(k, w, Held, Waiting) && k.request in w.held && Some(w.held[k.request]) == k.before.Session()
    ensures At(k, n, Held, Found) && n.tv == w.tv && n.issued == w.issued
  {
    hide Reachable, OnStage, Watch.Script;
    var s := FindHold(k.observer, k.request);
    assert Do(w, s) == DoWatch(w, s);
    n := Watches(k, w, s, Held, Found);
  }

  lemma Looks(k: Scene, w: World, from: WatchPhase) returns (n: World)
    requires k.Valid() && At(k, w, Held, from) && (from.Found? || from.Watching?)
    requires w.tv == if from.Found? then k.before else k.after
    ensures At(k, n, Held, if from.Found? then Watching else Releasing) && n.tv == w.tv && n.issued == w.issued
  {
    hide Reachable, OnStage, Watch.Script;
    var s := ObserverReads(k.observer);
    assert Do(w, s) == DoWatch(w, s);
    n := Watches(k, w, s, Held, if from.Found? then Watching else Releasing);
  }

  lemma WatchLength(o: Watch)
    ensures |o.Script()| == o.early + |o.SightEvents()| + o.late + |o.ProofEvents()|
  {
  }

  lemma Releases(k: Scene, w: World) returns (n: World)
    requires k.Valid() && At(k, w, Held, Releasing) && w.issued == map[]
    ensures At(k, n, Held, Done) && n.tv == w.tv && k.request in n.releases && n.releases[k.request] == k.token
  {
    hide Reachable, OnStage, Inv, DoAct, DoRecord, DoRecordWatch, WatchLogged, WatchHistory;
    ReachableFacts(k.before, w);
    WatchFacts(w, k.observer);
    var s := Release(k.observer, k.token);
    ReachableStep(k.before, w, s);
    n := Do(w, s);
    assert n == DoWatch(w, s);
    WatchLength(w.watches[k.observer]);
    WatchLength(n.watches[k.observer]);
    hide Watch.Script;
  }

  // ---------------------------------------------------------------- the run

  lemma Starts(k: Scene) returns (w: World)
    requires k.Valid()
    ensures Reachable(k.before, w) && w.tv == k.before && w.issued == map[] && w.commands == map[]
    ensures k.remote in w.processes && w.processes[k.remote].role == k.role
    ensures w.watches == map[k.observer := NewWatch(Some(k.request))]
  {
    var w0 := NewWorld(k.before);
    assert Reachable(k.before, w0) by { assert Run(k.before, []) == w0; }
    var w1 := Do(w0, StartRemote(k.remote, k.role));
    ReachableStep(k.before, w0, StartRemote(k.remote, k.role));
    hide Reachable;
    w := Do(w1, StartObserver(k.observer, Some(k.request)));
    ReachableStep(k.before, w1, StartObserver(k.observer, Some(k.request)));
  }

  lemma Opens(k: Scene) returns (w: World)
    requires k.Valid()
    ensures At(k, w, Prepared, Waiting) && w.tv == k.before && w.issued == map[]
  {
    var w2 := Starts(k);
    var prepare := Prepare(k.request, k.remote, k.command, k.order, true, true, k.args);
    var w3 := Do(w2, prepare);
    ReachableStep(k.before, w2, prepare);
    assert w3.watches == w2.watches && k.request in w3.commands;
    assert |NewWatch(Some(k.request)).Script()| == 0;
    hide Reachable, Do, Cmd.Script, Watch.Script;
    w := RecordsAll(k.before, w3, k.request);
  }

  /** The command is sent, answered, and its confirmation held. */
  lemma SendsAndHolds(k: Scene) returns (w: World)
    requires k.Valid()
    ensures At(k, w, Held, Waiting) && w.tv == k.before && w.issued == map[]
    ensures k.request in w.held && Some(w.held[k.request]) == k.before.Session()
  {
    hide At;
    w := Opens(k);
    w := Advances(k, w, Prepared, Waiting);
    w := Advances(k, w, Captured, Waiting);
    w := Advances(k, w, Announced, Waiting);
    w := Advances(k, w, InTransport, Waiting);
    w := Advances(k, w, Responded, Waiting);
    w := Advances(k, w, Holding, Waiting);
  }

  lemma Switches(k: Scene, w: World) returns (n: World)
    requires k.Valid() && At(k, w, Held, Watching)
    ensures At(k, n, Held, Watching) && n.tv == k.after && n.issued == w.issued
  {
    hide Reachable, OnStage, Watched;
    ReachableStep(k.before, w, TvChanges(k.after));
    n := Do(w, TvChanges(k.after));
  }

  /** The observer sees the captured session, then another one, and releases the hold. */
  lemma IsObserved(k: Scene) returns (w: World)
    requires k.Valid()
    ensures At(k, w, Verifying, Done) && w.tv == k.after
  {
    hide At;
    w := SendsAndHolds(k);
    w := Finds(k, w);
    w := Looks(k, w, Found);
    w := Switches(k, w);
    w := Looks(k, w, Watching);
    w := Releases(k, w);
    w := Advances(k, w, Held, Done);
  }

  // A read of another session confirms nothing.
  lemma ReadsOther(k: Scene, c: Cmd, now: nat)
    requires k.Valid() && OnStage(k, c, Verifying) && Shape(c)
    ensures var y := CmdStep(c, ReadStatus(Answered(k.after), false), now);
            y.Some? && forall n :: Like(n, y.value) && n.Idle() ==> OnStage(k, n, Verifying)
  {
    ConfirmMeansMatch(c.expectation, c.seen, Answered(k.after), false);
    assert c.captured && k.after.connection == Connected;
    if Matches(c.expectation, c.seen, k.after) {
      MatchOnTarget(c, k.after);
    }
    assert AfterRead(c.expectation, c.seen, Answered(k.after), false).decision == Continue;
    hide Cmd.Script, Shape, AfterRead, Matches;
  }

  lemma Reads(k: Scene, w: World) returns (n: World)
    requires k.Valid() && At(k, w, Verifying, Done) && w.tv == k.after
    ensures At(k, n, Verifying, Done) && exists m :: 0 <= m < |n.timeline| && IsReadOf(n.timeline[m], k.request)
  {
    hide Reachable, Watched, Inv, Cmd.Script, Shape, CmdLogged, CmdHistory, TokenOk;
    ReachableFacts(k.before, w);
    CommandFacts(w, k.request);
    var c, a := w.commands[k.request], ReadStatus(Answered(k.after), false);
    ReadsOther(k, c, |w.timeline|);
    assert Agrees(w, k.request, a) && c.id == k.request;
    hide CmdStep, OnStage, Agrees;
    n := Acts(k.before, w, k.request, a);
    assert IsReadOf(n.timeline[|w.timeline|], k.request);
  }

  /** The whole run: the command is finished and recorded, its observer has still to record the release. */
  lemma Finishes(k: Scene) returns (w: World)
    requires k.Valid()
    ensures At(k, w, Finished, Done) && exists m :: 0 <= m < |w.timeline| && IsReadOf(w.timeline[m], k.request)
  {
    hide At, IsReadOf;
    var w1 := IsObserved(k);
    var w2 := Reads(k, w1);
    var m :| 0 <= m < |w2.timeline| && IsReadOf(w2.timeline[m], k.request);
    w := Advances(k, w2, Verifying, Done);
    assert w.timeline[m] == w2.timeline[m];
  }

  // ---------------------------------------------------------------- its evidence

  /** Everything the command's and the observer's trace files hold. */
  function Files(w: World, r: RequestId, o: nat): seq<TraceEvent>
    requires r in w.commands && o in w.watches
  {
    w.commands[r].file + w.watches[o].file
  }

  lemma SelectPart(a: seq<TraceEvent>, b: seq<TraceEvent>, r: RequestId, role: Role)
    requires forall e :: e in a ==> Belongs(e, r, role)
    requires forall e :: e in b ==> !Belongs(e, r, role)
    ensures multiset(Select(a + b, r, role)) == multiset(a) && multiset(Select(b + a, r, role)) == multiset(a)
  {
    hide Select;
    forall e ensures multiset(Select(a + b, r, role))[e] == multiset(a)[e] == multiset(Select(b + a, r, role))[e] {
      SelectIsExact(a + b, r, role, e);
      SelectIsExact(b + a, r, role, e);
      assert multiset(a + b)[e] == multiset(a)[e] + multiset(b)[e] == multiset(b + a)[e];
      assert multiset(a)[e] > 0 <==> e in a;
      assert multiset(b)[e] > 0 <==> e in b;
    }
  }

  lemma SelectNothing(events: seq<TraceEvent>, r: RequestId, role: Role)
    requires forall e :: e in events ==> !Belongs(e, r, role)
    ensures Select(events, r, role) == []
  {
    SelectPart([], events, r, role);
    assert [] + events == events;
    assert |Select(events, r, role)| == |multiset(Select(events, r, role))|;
  }

  lemma WatchOwner(o: Watch, p: Process)
    requires WatchLogged(o, p)
    ensures forall e :: e in o.log ==> e.client == ObserverRole && e.requestId == o.request
    ensures forall e :: e in o.file ==> e in o.log
  {
    hide Emitted, Watch.Script;
  }

  /** Put together, the two files hold exactly the events of the one command and of its observer. */
  lemma FilesHold(w: World, r: RequestId, o: nat)
    requires Inv(w) && r in w.commands && o in w.watches && w.watches[o].request == r
    requires w.commands[r].file == w.commands[r].log && w.commands[r].process in w.processes
    ensures var role, loaded := w.processes[w.commands[r].process].role, Files(w, r, o);
            && multiset(Select(loaded, r, role)) == multiset(w.commands[r].log)
            && Select(loaded, r, if role == Ubuntu then Android else Ubuntu) == []
            && multiset(Select(loaded, r, ObserverRole)) == multiset(w.watches[o].file)
    ensures Genuine(w, Files(w, r, o))
  {
    hide Inv, Shape, CmdLogged, WatchLogged, WatchShape, WatchHistory, CmdHistory, TokenOk, Select, SequenceGrows, Contiguous;
    CommandFacts(w, r);
    WatchFacts(w, o);
    var c, watch, role := w.commands[r], w.watches[o], w.processes[w.commands[r].process].role;
    LogIsContiguous(c, w.processes[c.process]);
    WatchOwner(watch, w.processes[o]);
    SelectPart(c.file, watch.file, r, role);
    SelectPart(watch.file, c.file, r, ObserverRole);
    SelectNothing(c.file + watch.file, r, if role == Ubuntu then Android else Ubuntu);
    forall e | e in c.file + watch.file
      ensures Remote(e.client) ==> e.requestId in w.commands && e in w.commands[e.requestId].file
      ensures e.client == ObserverRole ==> exists id :: id in w.watches && e in w.watches[id].file
    {
      assert e in c.file || e in watch.file;
    }
  }

  /** The last record of the run: the observer's release, written or lost. */
  lemma LastRecord(k: Scene, w: World, wrote: bool)
    requires k.Valid() && At(k, w, Finished, Done)
    ensures var n := Do(w, RecordWatch(k.observer, true, wrote));
            && n.commands == w.commands && n.timeline == w.timeline && SameRoles(w, n) && k.observer in n.watches
            && var o, last := w.watches[k.observer], n.watches[k.observer];
            && last.Idle() && last.proof == SentRelease(k.token) && last.request == k.request
            && |last.log| == |o.log| + 1 && last.log[..|o.log|] == o.log == o.file && NothingLost(last.log)
            && last.file == if wrote then last.log else o.log
  {
    hide Reachable, Inv, OnStage, DoAct, DoRecord, DoWatch, WatchShape, WatchHistory, Watch.Script, LogOk, Emitted;
    ReachableFacts(k.before, w);
    WatchFacts(w, k.observer);
    var o := w.watches[k.observer];
    WatchScriptEvents(o);
    var n := Do(w, RecordWatch(k.observer, true, wrote));
    var last := n.watches[k.observer];
    SameWatchScript(o, last.recorded, last.log, last.file);
  }

  /** The run of the scene, up to the observer's last record. */
  ghost predicate Played(k: Scene, steps: seq<Step>) {
    && (forall s :: s in steps ==> Writes(s)) && At(k, Run(k.before, steps), Finished, Done)
    && exists m :: 0 <= m < |Run(k.before, steps).timeline| && IsReadOf(Run(k.before, steps).timeline[m], k.request)
  }

  /** The world after that record, written or lost. */
  function Ending(k: Scene, steps: seq<Step>, wrote: bool): World {
    Run(k.before, steps + [RecordWatch(k.observer, true, wrote)])
  }

  lemma EndingIs(k: Scene, steps: seq<Step>, wrote: bool)
    ensures Ending(k, steps, wrote) == Do(Run(k.before, steps), RecordWatch(k.observer, true, wrote))
  {
    assert (steps + [RecordWatch(k.observer, true, wrote)])[..|steps|] == steps;
    hide Do;
  }

  lemma FinishedFacts(k: Scene, w: World)
    requires k.Valid() && At(k, w, Finished, Done)
    ensures var c := w.commands[k.request];
            && c.process in w.processes && c.phase == Finished && c.Idle() && c.file == c.log && NothingLost(c.log)
            && c.hold == HoldEnded(k.token) && c.ending.NotConfirmed?
  {
    hide Reachable, Inv, Cmd.Script, Watched, Shape, CmdLogged, CmdHistory, TokenOk;
    ReachableFacts(k.before, w);
    CommandFacts(w, k.request);
  }

  /** How the run ends: all of it recorded, and all but possibly the observer's release written. */
  predicate Ended(k: Scene, n: World, wrote: bool) {
    && k.request in n.commands && k.observer in n.watches && n.commands[k.request].process in n.processes
    && var c, o := n.commands[k.request], n.watches[k.observer];
    && c.phase == Finished && c.Idle() && c.file == c.log && NothingLost(c.log)
    && o.Idle() && o.request == k.request && NothingLost(o.log) && o.log != [] && o.proof.SentRelease?
    && o.file == if wrote then o.log else o.log[..|o.log| - 1]
  }

  lemma LastRecordEnds(k: Scene, w: World, wrote: bool)
    requires k.Valid() && At(k, w, Finished, Done)
    requires exists m :: 0 <= m < |w.timeline| && IsReadOf(w.timeline[m], k.request)
    ensures var n := Do(w, RecordWatch(k.observer, true, wrote));
            Ended(k, n, wrote) && ReleasedByProofAndRead(n, k.request, k.observer)
  {
    hide Do, Cmd.Idle, Watch.Idle, IsReadOf, NothingLost;
    FinishedFacts(k, w);
    LastRecord(k, w, wrote);
    hide At;
  }

  lemma EndingFacts(k: Scene, steps: seq<Step>, wrote: bool)
    requires k.Valid() && Played(k, steps)
    ensures var n := Ending(k, steps, wrote);
            Inv(n) && Ended(k, n, wrote) && ReleasedByProofAndRead(n, k.request, k.observer)
  {
    EndingIs(k, steps, wrote);
    RunKeepsInv(k.before, steps + [RecordWatch(k.observer, true, wrote)]);
    hide Run, Do, Inv, Ended, ReleasedByProofAndRead, IsReadOf, At;
    LastRecordEnds(k, Run(k.before, steps), wrote);
  }

  lemma EndingPasses(k: Scene, steps: seq<Step>)
    requires k.Valid() && Played(k, steps)
    ensures var n := Ending(k, steps, true);
            k.request in n.commands && k.observer in n.watches && Genuine(n, Files(n, k.request, k.observer))
            && ClassifyC6(Files(n, k.request, k.observer), k.request) == Pass
  {
    hide Inv, ClassifyC6, Genuine, ReleasedByProofAndRead, Select, Played, NothingLost, Cmd.Idle, Watch.Idle, Run;
    EndingFacts(k, steps, true);
    var n := Ending(k, steps, true);
    FilesHold(n, k.request, k.observer);
    C6ExactlyWhen(k.before, steps + [RecordWatch(k.observer, true, true)], Files(n, k.request, k.observer), k.request, k.observer);
  }

  lemma CutLogIsStream(log: seq<TraceEvent>, loaded: seq<TraceEvent>, r: RequestId)
    requires log != [] && Contiguous(log) && multiset(Select(loaded, r, ObserverRole)) == multiset(log[..|log| - 1])
    ensures Stream(loaded, r, ObserverRole) == log[..|log| - 1]
  {
    DropLast(log);
    StreamIsLog(loaded, r, ObserverRole, log[..|log| - 1]);
  }

  lemma ReleaseLogIsLong(o: Watch, p: Process)
    requires WatchShape(o) && WatchLogged(o, p) && o.proof.SentRelease? && o.Idle() && NothingLost(o.log)
    ensures |o.log| > 1 && Contiguous(o.log)
  {
    WatchLogWhole(o, p);
    ReleaseScript(o);
    hide Watch.Script, WatchShape, WatchLogged;
  }

  lemma EndingFails(k: Scene, steps: seq<Step>)
    requires k.Valid() && Played(k, steps)
    ensures var n := Ending(k, steps, false);
            k.request in n.commands && k.observer in n.watches && Genuine(n, Files(n, k.request, k.observer))
            && ClassifyC6(Files(n, k.request, k.observer), k.request) == Fail(Missing(ObserverReleaseSent))
  {
    hide Inv, ClassifyC6, Genuine, Select, Played, NothingLost, Cmd.Idle, Watch.Idle, Run, Stream, Shape, CmdLogged, Faithful,
         WatchShape, WatchLogged, WatchHistory, Contiguous, Acting, ReleasedByProofAndRead;
    EndingFacts(k, steps, false);
    var n := Ending(k, steps, false);
    var c, o, loaded := n.commands[k.request], n.watches[k.observer], Files(n, k.request, k.observer);
    FilesHold(n, k.request, k.observer);
    CompleteIsActing(n, loaded, k.request, c, n.processes[c.process]);
    WatchFacts(n, k.observer);
    ReleaseLogIsLong(o, n.processes[k.observer]);
    CutLogIsStream(o.log, loaded, k.request);
    LostReleaseIsMissing(k.before, steps + [RecordWatch(k.observer, true, false)], loaded, k.request, k.observer);
  }

  // An observer stopped before its last record leaves what a lost last record leaves.
  lemma StoppedLeavesTheSame(k: Scene, steps: seq<Step>)
    requires k.Valid() && Played(k, steps)
    ensures var w, cut := Run(k.before, steps), Ending(k, steps, false);
            && k.request in w.commands && k.observer in w.watches && k.request in cut.commands && k.observer in cut.watches
            && Files(w, k.request, k.observer) == Files(cut, k.request, k.observer)
  {
    EndingIs(k, steps, false);
    hide Run, Do, IsReadOf, Reachable;
    LastRecord(k, Run(k.before, steps), false);
  }

  /** For every playback command, every two sessions the TV reports and every token there is a run
      with nothing lost whose files pass C6; and the same run whose observer loses only its last
      event, because that write fails or because it is stopped before it, leaves files that are
      judged a demonstrated violation. */
  lemma LostReleaseTurnsPassIntoFail(k: Scene)
    requires k.Valid()
    ensures exists steps ::
              && (forall s :: s in steps ==> Writes(s))
              && var stopped, whole, cut := Run(k.before, steps), Ending(k, steps, true), Ending(k, steps, false);
              && k.request in whole.commands && k.observer in whole.watches
              && Genuine(whole, Files(whole, k.request, k.observer))
              && ClassifyC6(Files(whole, k.request, k.observer), k.request) == Pass
              && k.request in cut.commands && k.observer in cut.watches
              && Genuine(cut, Files(cut, k.request, k.observer))
              && ClassifyC6(Files(cut, k.request, k.observer), k.request) == Fail(Missing(ObserverReleaseSent))
              && k.request in stopped.commands && k.observer in stopped.watches
              && Files(stopped, k.request, k.observer) == Files(cut, k.request, k.observer)
  {
    var w := Finishes(k);
    hide Run, OnStage, Watched, ClassifyC6, Genuine, Writes, IsReadOf, Files, Ending;
    var steps :| (forall s :: s in steps ==> Writes(s)) && Run(k.before, steps) == w;
    assert Played(k, steps);
    EndingPasses(k, steps);
    EndingFails(k, steps);
    StoppedLeavesTheSame(k, steps);
  }
}
