/** A run in which an application request is sent twice and the second send is not in any file: the
    first invocation's evidence is complete and passes C7. */
module LostSend {
  import opened Domain
  import opened Confirmation
  import opened CommandTrace
  import opened Evidence
  import opened AcceptanceRun
  import opened RunShape
  import opened RunInvariant
  import opened EvidenceTheorems
  import opened SendEvidence
  import opened HonestRun

  /** One application request, sent by two invocations; the first ends without a known result. */
  datatype Resend = Resend(
    command: Command, args: Expectation, order: OrderId, role: Role, remote: nat,
    first: RequestId, second: RequestId, outcome: TransportOutcome, tv: DeviceStatus)
  {
    predicate Valid() {
      && ArgsFit(command, args) && Remote(role) && first != second && tv.Consistent()
      && (TargetsSession(command) ==>
            tv.Session().Some? && (command == Seek ==> tv.media.value.supportsSeek != Some(false)))
      && (outcome.Crashed? || (outcome.Refused? && !outcome.notSent && outcome.code != CommandRejected))
    }
  }

  /** An invocation in one of its phases, everything recorded. */
  predicate OnWay(k: Resend, c: Cmd, r: RequestId, phase: Phase) {
    && c.id == r && c.process == k.remote && c.command == k.command && c.order == Some(k.order) && c.phase == phase
    && (phase.Finished? ==> c.ending == AtSend(k.outcome))
    && c.Idle()
  }

  ghost predicate Invoked(k: Resend, w: World, r: RequestId, phase: Phase) {
    && Reachable(k.tv, w) && w.tv == k.tv && k.remote in w.processes && w.processes[k.remote].role == k.role
    && r in w.commands && OnWay(k, w.commands[r], r, phase)
  }

  /** Where an invocation stands before it sends: a playback command has captured its session. */
  function Ready(k: Resend): Phase { if TargetsSession(k.command) then Captured else Prepared }

  function StepAfter(k: Resend, phase: Phase): Action {
    if phase == Ready(k) then Announce
    else
      match phase
      case Prepared => Capture(k.tv)
      case Announced => EnterTransport
      case _ => TransportReturns(k.outcome)
  }

  function PhaseAfter(k: Resend, phase: Phase): Phase {
    if phase == Ready(k) then Announced
    else
      match phase
      case Prepared => Captured
      case Announced => InTransport
      case _ => Finished
  }

  lemma GoesOn(k: Resend, w: World, r: RequestId, phase: Phase) returns (n: World)
    requires k.Valid() && Invoked(k, w, r, phase)
    requires phase.Prepared? || phase == Ready(k) || phase.Announced? || phase.InTransport?
    ensures Invoked(k, n, r, PhaseAfter(k, phase)) && n.commands == w.commands[r := n.commands[r]]
  {
    hide Reachable, Cmd.Script, IdentityOf, Bind;
    var a := StepAfter(k, phase);
    assert Agrees(w, r, a) && CmdStep(w.commands[r], a, |w.timeline|).Some?;
    n := Acts(k.tv, w, r, a);
  }

  /** A new invocation, about to send. */
  lemma Prepares(k: Resend, w: World, r: RequestId) returns (n: World)
    requires k.Valid() && Reachable(k.tv, w) && w.tv == k.tv && k.remote in w.processes && w.processes[k.remote].role == k.role
    requires r !in w.commands
    ensures Invoked(k, n, r, Ready(k)) && n.commands == w.commands[r := n.commands[r]]
  {
    hide Reachable, DoAct, DoRecord, DoRecordWatch, DoWatch, Cmd.Script;
    var s := Prepare(r, k.remote, k.command, Some(k.order), false, true, k.args);
    ReachableStep(k.tv, w, s);
    var m := Do(w, s);
    assert m.commands == w.commands[r := NewCmd(r, k.remote, k.command, Some(k.order), false, true, k.args)];
    hide Do;
    n := RecordsAll(k.tv, m, r);
    if TargetsSession(k.command) {
      hide OnWay;
      n := GoesOn(k, n, r, Prepared);
    }
  }

  /** The first invocation has ended, the second is about to send. */
  lemma BothBegun(k: Resend) returns (w: World)
    requires k.Valid()
    ensures Invoked(k, w, k.first, Finished) && Invoked(k, w, k.second, Ready(k))
  {
    hide OnWay, DoAct, DoRecord, DoRecordWatch, DoWatch;
    var w0 := NewWorld(k.tv);
    assert Reachable(k.tv, w0) by { assert Run(k.tv, []) == w0; }
    var w1 := Do(w0, StartRemote(k.remote, k.role));
    ReachableStep(k.tv, w0, StartRemote(k.remote, k.role));
    assert w1.tv == k.tv && k.remote in w1.processes && w1.processes[k.remote].role == k.role && w1.commands == map[];
    hide Do, OnWay, Reachable;
    w := Prepares(k, w1, k.first);
    w := GoesOn(k, w, k.first, Ready(k));
    w := GoesOn(k, w, k.first, Announced);
    w := GoesOn(k, w, k.first, InTransport);
    w := Prepares(k, w, k.second);
  }

  /** The second invocation sends, and the write of its send fails. */
  function SendUnseen(k: Resend): seq<Step> {
    [Act(k.second, Announce), RecordCommand(k.second, true, false)]
  }

  lemma UnsentFile(c: Cmd, p: Process)
    requires Shape(c) && CmdLogged(c, p) && !c.sent && c.Idle() && NothingLost(c.log) && c.file == c.log
    ensures forall e :: e in c.file ==> e.event != SendAttempt
  {
    hide Shape, Cmd.Script, CmdLogged;
    WholeIsFaithful(c, p);
    hide Faithful;
    forall e | e in c.file ensures e.event != SendAttempt {
      FaithfulEvent(c.log, c.Script(), e);
      EventOrigin(c, EmissionOf(e));
    }
  }

  // The send extends the script by its event.
  lemma AnnouncesNext(c: Cmd, n: Cmd)
    requires Shape(c) && (c.phase == Prepared || c.phase == Captured) && n == c.(phase := Announced, sent := true)
    ensures |n.Script()| == |c.Script()| + 1 && n.Script()[|c.Script()|].event == SendAttempt
  {
    hide ArgsFit, BoundToTarget;
  }

  lemma AnnouncesSecond(k: Resend, w: World)
    requires k.Valid() && Invoked(k, w, k.second, Ready(k)) && Shape(w.commands[k.second])
    ensures var n, c := Do(w, Act(k.second, Announce)), w.commands[k.second];
            && k.second in n.commands && n.processes == w.processes && n.commands == w.commands[k.second := n.commands[k.second]]
            && n.commands[k.second] == c.(phase := Announced, sent := true)
            && n.commands[k.second].recorded < |n.commands[k.second].Script()|
            && n.commands[k.second].Script()[c.recorded].event == SendAttempt
  {
    hide Reachable, Cmd.Script, Shape;
    AnnouncesNext(w.commands[k.second], w.commands[k.second].(phase := Announced, sent := true));
  }

  lemma LosesSend(w: World, r: RequestId)
    requires r in w.commands && w.commands[r].process in w.processes && w.commands[r].recorded < |w.commands[r].Script()|
    requires w.commands[r].Script()[w.commands[r].recorded].event == SendAttempt
    requires w.processes[w.commands[r].process].recorder.incomplete == {}
    ensures var n := Do(w, RecordCommand(r, true, false));
            && r in n.commands && n.commands == w.commands[r := n.commands[r]] && SameRoles(w, n)
            && n.commands[r].id == w.commands[r].id && n.commands[r].process == w.commands[r].process
            && n.commands[r].order == w.commands[r].order && n.commands[r].file == w.commands[r].file && HasSent(n.commands[r])
  {
    hide Cmd.Script;
    var n := Do(w, RecordCommand(r, true, false));
    var log := n.commands[r].log;
    assert log[|log| - 1].event == SendAttempt;
  }

  /** After it: the first invocation is done and unlost, the second sent, and no file shows its send. */
  ghost predicate SentTwice(k: Resend, n: World) {
    && k.first in n.commands && k.second in n.commands
    && k.remote in n.processes && n.processes[k.remote].role == k.role
    && OnWay(k, n.commands[k.first], k.first, Finished)
    && n.commands[k.first].file == n.commands[k.first].log && NothingLost(n.commands[k.first].log)
    && n.commands[k.second].id == k.second && n.commands[k.second].process == k.remote
    && n.commands[k.second].order == Some(k.order) && HasSent(n.commands[k.second])
    && forall e :: e in n.commands[k.second].file ==> e.event != SendAttempt
  }

  lemma SendsUnseen(k: Resend, w: World)
    requires k.Valid() && Invoked(k, w, k.first, Finished) && Invoked(k, w, k.second, Ready(k))
    ensures SentTwice(k, Do(Do(w, SendUnseen(k)[0]), SendUnseen(k)[1]))
  {
    hide Reachable, Inv, NoLoss, Do, HasSent, Cmd.Idle, Cmd.Script, NothingLost, Shape;
    ReachableFacts(k.tv, w);
    SecondIsUnsent(k, w);
    UnlostSoFar(k, w);
    AnnouncesSecond(k, w);
    var m := Do(w, Act(k.second, Announce));
    LosesSend(m, k.second);
  }

  lemma UnlostSoFar(k: Resend, w: World)
    requires NoLoss(w) && k.first in w.commands && k.remote in w.processes
    ensures w.processes[k.remote].recorder.incomplete == {}
    ensures w.commands[k.first].file == w.commands[k.first].log && NothingLost(w.commands[k.first].log)
  {
  }

  lemma SecondIsUnsent(k: Resend, w: World)
    requires Inv(w) && NoLoss(w) && Invoked(k, w, k.second, Ready(k))
    ensures Shape(w.commands[k.second]) && forall e :: e in w.commands[k.second].file ==> e.event != SendAttempt
  {
    hide Reachable, Inv, Cmd.Script, CmdLogged, CmdHistory, TokenOk, PartsInOrder;
    CommandFacts(w, k.second);
    UnsentFile(w.commands[k.second], w.processes[k.remote]);
  }

  /** The files of both invocations: all that the run left of the application request. */
  function BothFiles(k: Resend, w: World): seq<TraceEvent>
    requires k.first in w.commands && k.second in w.commands
  {
    w.commands[k.first].file + w.commands[k.second].file
  }

  lemma OwnStreamIsThere(k: Resend, n: World)
    requires k.Valid() && Inv(n) && SentTwice(k, n)
    ensures OwnStreamLoaded(n, BothFiles(k, n), k.first) && OnlySendLoaded(BothFiles(k, n), k.first, k.order)
    ensures Genuine(n, BothFiles(k, n))
  {
    hide Inv, Select, Shape, CmdLogged, CmdHistory, TokenOk, SequenceGrows, Contiguous, Cmd.Script, HasSent;
    CommandFacts(n, k.first);
    CommandFacts(n, k.second);
    var a, b := n.commands[k.first], n.commands[k.second];
    LogIsContiguous(a, n.processes[k.remote]);
    LogIsContiguous(b, n.processes[k.remote]);
    FileInLog(b, n.processes[k.remote]);
    SelectPart(a.file, b.file, k.first, k.role);
    SelectNothing(a.file + b.file, k.first, if k.role == Ubuntu then Android else Ubuntu);
    forall e | e in a.file + b.file
      ensures IsSendOf(e, k.order) ==> e.requestId == k.first
      ensures Remote(e.client) && e.requestId in n.commands && e in n.commands[e.requestId].file
    {
      assert e in a.file || e in b.file;
    }
  }

  /** Two invocations of one application request sent, and the first passes C7 on the files of both. */
  ghost predicate PassesThough(k: Resend, w: World) {
    && k.first in w.commands && k.second in w.commands
    && w.commands[k.first].order == w.commands[k.second].order == Some(k.order)
    && HasSent(w.commands[k.first]) && HasSent(w.commands[k.second])
    && Genuine(w, BothFiles(k, w)) && ClassifyC7(BothFiles(k, w), k.first) == Pass
  }

  /** Every write of the run succeeds, except that of the second invocation's send. */
  predicate AllWrittenBut(k: Resend, steps: seq<Step>) {
    forall s :: s in steps ==> Writes(s) || s == RecordCommand(k.second, true, false)
  }

  lemma SentTwicePasses(k: Resend, steps: seq<Step>)
    requires k.Valid() && SentTwice(k, Run(k.tv, steps))
    ensures PassesThough(k, Run(k.tv, steps))
  {
    hide Run, Inv, OwnStreamLoaded, OnlySendLoaded, Genuine, ClassifyC7, Cmd.Script, Shape, CmdLogged, Faithful, CmdHistory,
         TokenOk;
    RunKeepsInv(k.tv, steps);
    var w := Run(k.tv, steps);
    OwnStreamIsThere(k, w);
    CommandFacts(w, k.first);
    var c := w.commands[k.first];
    UnseenSecondSendPasses(k.tv, steps, BothFiles(k, w), k.first, k.second);
    WholeIsFaithful(c, w.processes[c.process]);
    AmbiguousTrace(c, c.log);
    assert HasSent(c) by { assert Has(c.log, SendAttempt); }
  }

  /** For every application request that two invocations send there is a run in which only the second
      one's send event is lost, and whose files pass C7 for the first: C7 vouches for what was loaded,
      not for what was sent. */
  lemma LostSecondSendPasses(k: Resend)
    requires k.Valid()
    ensures exists steps :: AllWrittenBut(k, steps) && PassesThough(k, Run(k.tv, steps))
  {
    hide Run, SentTwice, PassesThough, OnWay, Do, Writes, AllWrittenBut;
    var w := BothBegun(k);
    SendsUnseen(k, w);
    var steps := StepsTo(k, w);
    var all := steps + [SendUnseen(k)[0]] + [SendUnseen(k)[1]];
    TwoMore(k.tv, steps, SendUnseen(k)[0], SendUnseen(k)[1]);
    SentTwicePasses(k, all);
    OnlySecondLost(k, steps);
  }

  lemma StepsTo(k: Resend, w: World) returns (steps: seq<Step>)
    requires Reachable(k.tv, w)
    ensures (forall s :: s in steps ==> Writes(s)) && Run(k.tv, steps) == w
  {
    steps :| (forall s :: s in steps ==> Writes(s)) && Run(k.tv, steps) == w;
  }

  lemma OnlySecondLost(k: Resend, steps: seq<Step>)
    requires forall s :: s in steps ==> Writes(s)
    ensures AllWrittenBut(k, steps + [SendUnseen(k)[0]] + [SendUnseen(k)[1]])
  {
  }

  lemma TwoMore(tv: DeviceStatus, steps: seq<Step>, a: Step, b: Step)
    ensures Run(tv, steps + [a] + [b]) == Do(Do(Run(tv, steps), a), b)
  {
    hide Do;
    assert (steps + [a])[..|steps|] == steps && (steps + [a] + [b])[..|steps| + 1] == steps + [a];
  }
}
