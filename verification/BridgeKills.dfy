/** What the stop of a timed-out request's process may hit: in runs where nothing fails by itself, only
    another request of the same process, and exactly when that one was not answered in time. */
module BridgeKills {
  import opened Domain
  import opened Bridge

  predicate GoodBody(body: Body) { !body.OddError? && body != Denied(BridgeTransport) }

  /** Nothing fails by itself: no process dies, no write, read or check fails, no worker panics, and
      no answer is itself a `bridge_transport` failure. */
  predicate Calm(s: Step) {
    match s
    case Dies(_) => false
    case Panic(_) => false
    case CheckExited(_, checkFails) => !checkFails
    case Write(_, outcome) => outcome.Wrote?
    case ReadLine(_, fails) => !fails
    case Answers(_, body) => GoodBody(body)
    case _ => true
  }

  /** A request written to the process timed out. */
  predicate TimedOutOn(w: World, p: Pid) {
    exists d :: d in w.calls && w.calls[d].told == Some(Raised(BridgeTimeout)) && w.calls[d].writtenTo == Some(p)
  }

  /** The process answered the request, whether or not its worker read the answer. */
  predicate Answered(w: World, c: CallId) { exists g :: g in w.given && g.caller == c }

  /** The call ends, or will, in a broken bridge. */
  predicate IsHit(call: Call) {
    call.phase.Failing? || call.phase == Returned(Raised(BridgeTransport)) || call.told == Some(Raised(BridgeTransport))
  }

  /** A hit call was claimed on a process that is dead and never answered it; while its worker still
      has to retire the process, none runs. */
  predicate HitOk(w: World, c: CallId)
    requires c in w.calls
  {
    var call := w.calls[c];
    && call.writtenTo.Some? && call.writtenTo.value in w.processes && !w.processes[call.writtenTo.value].alive
    && call.claim.Started? && !Answered(w, c)
    && (call.phase.Failing? ==>
          call.phase.failure == Raised(BridgeTransport) && forall p :: p in w.processes ==> !w.processes[p].alive)
  }

  /** A line still to be answered belongs to a delivered request without an answer. */
  predicate LineOk(w: World, p: Pid, line: Line) {
    Delivery(line.caller, p, line.id) in w.deliveries && !Answered(w, line.caller)
  }

  predicate Unanswered(w: World) {
    && (forall p :: p in w.processes ==> |w.processes[p].inbox| <= 1)
    && (forall p :: p in w.processes && w.processes[p].inbox != [] ==> LineOk(w, p, w.processes[p].inbox[0]))
    && (forall g :: g in w.given ==> exists d :: d in w.deliveries && d.caller == g.caller)
  }

  /** In a calm run a process is only ever stopped for a request written to it that timed out. */
  predicate StopsBlamed(w: World) {
    && !w.poisoned
    && (forall c :: c in w.calls ==> !w.calls[c].phase.Panicked? && !w.calls[c].phase.Clearing?)
    && (forall p :: p in w.kills ==> TimedOutOn(w, p))
    && (forall p :: p in w.processes && !w.processes[p].alive ==> w.processes[p].terminated && TimedOutOn(w, p))
    && (forall g :: g in w.given ==> GoodBody(g.body))
  }

  predicate HitsOk(w: World) { forall c :: c in w.calls && IsHit(w.calls[c]) ==> HitOk(w, c) }

  predicate Blamed(w: World) { StopsBlamed(w) && HitsOk(w) }

  // The call of a request that timed out keeps what it was told and its process.
  lemma TimedOutStays(w: World, s: Step, p: Pid)
    requires CallsOk(w) && TimedOutOn(w, p)
    ensures TimedOutOn(Do(w, s), p)
  {
    var d :| d in w.calls && w.calls[d].told == Some(Raised(BridgeTimeout)) && w.calls[d].writtenTo == Some(p);
    ToldStays(w, s, d);
    WrittenToStays(w, s, d);
    hide Do;
  }

  // A step of one call leaves every other call alone, and a claim and its process stay.
  lemma WrittenToStays(w: World, s: Step, d: CallId)
    requires CallsOk(w) && d in w.calls && w.calls[d].claim.Started?
    ensures d in Do(w, s).calls && Do(w, s).calls[d].writtenTo == w.calls[d].writtenTo && Do(w, s).calls[d].claim.Started?
  {
    if s.Terminate? || s.Dies? || s.Answers? || s.c != d {
      OthersStay(w, s, d);
      hide Do;
    } else if LongStep(s) {
      LongStepMovesOn(w, s);
      hide Do;
    } else {
      assert CallOk(w.calls[d]);
      assert !w.calls[d].phase.Looking? && !w.calls[d].claim.Pending?;
      hide CallOk, CallsOk, DoReadLine, DoWrite, DoCheckExited, DoRetireFailed, DoLaunch, DoProcess, Retire;
    }
  }

  // What a step that neither writes nor answers does to the traffic: at most a new process.
  predicate SameTraffic(w: World, n: World) {
    && n.given == w.given && n.deliveries == w.deliveries
    && forall p :: p in n.processes && n.processes[p].inbox != [] ==>
         p in w.processes && n.processes[p].inbox == w.processes[p].inbox
  }

  lemma TrafficKept(w: World, s: Step)
    requires !s.Write? && !s.Answers?
    ensures SameTraffic(w, Do(w, s))
  {
    if s.Terminate? || s.Dies? {
      hide SameTraffic;
      ProcessTraffic(w, s);
    } else if LongStep(s) && s.c in w.calls {
      LongStepTraffic(w, s);
      hide SameTraffic;
    }
    hide LongStep, DoReadLine, DoWrite, DoCheckExited, DoRetireFailed, DoLaunch, DoProcess, Holds;
  }

  lemma LongStepTraffic(w: World, s: Step)
    requires LongStep(s) && !s.Write? && s.c in w.calls
    ensures SameTraffic(w, Do(w, s))
  {
    if s.ReadLine? {
      ReadTraffic(w, s.c, s.fails);
    }
    hide DoReadLine, DoWrite;
  }

  lemma ReadTraffic(w: World, c: CallId, fails: bool)
    requires c in w.calls
    ensures SameTraffic(w, DoReadLine(w, c, fails))
  {
    hide ParseResponse, BreaksBridge;
  }

  lemma ProcessTraffic(w: World, s: Step)
    requires s.Terminate? || s.Dies?
    ensures SameTraffic(w, DoProcess(w, s))
  {
  }

  lemma UnansweredKept(w: World, n: World)
    requires Unanswered(w) && SameTraffic(w, n)
    ensures Unanswered(n)
  {
    forall p | p in n.processes && n.processes[p].inbox != [] ensures LineOk(n, p, n.processes[p].inbox[0]) {
      assert LineOk(w, p, w.processes[p].inbox[0]);
    }
  }

  lemma WriteKeepsUnanswered(w: World, c: CallId, outcome: WriteOutcome)
    requires Inv(w) && Unanswered(w) && c in w.calls
    ensures Unanswered(DoWrite(w, c, outcome))
  {
    var n := DoWrite(w, c, outcome);
    if n != w && !outcome.FailedBeforeWriting? {
      var pid := w.slot.pid;
      assert Quiet(w.processes[pid]);
      var line := Line(w.processes[pid].nextId, c);
      assert n.processes[pid].inbox == [line];
      assert n.deliveries[|w.deliveries|] == Delivery(c, pid, line.id);
      forall g | g in w.given ensures g.caller != c {
        var d :| d in w.deliveries && d.caller == g.caller;
        assert DeliveryOk(w.calls, d);
      }
      assert !Answered(n, c);
      hide Inv;
      forall p | p in w.processes && p != pid && w.processes[p].inbox != [] ensures LineOk(n, p, w.processes[p].inbox[0]) {
        assert LineOk(w, p, w.processes[p].inbox[0]);
      }
      forall g | g in n.given ensures exists d :: d in n.deliveries && d.caller == g.caller {
        var d :| d in w.deliveries && d.caller == g.caller;
        assert d in n.deliveries;
      }
    }
  }

  // A request was delivered to one process only.
  lemma OneDelivery(w: World, a: Delivery, b: Delivery)
    requires Once(w) && a in w.deliveries && b in w.deliveries && a.caller == b.caller
    ensures a == b
  {
  }

  lemma AnswersKeepUnanswered(w: World, pid: Pid, body: Body)
    requires Inv(w) && Unanswered(w) && pid in w.processes
    ensures Unanswered(DoAnswers(w, pid, body))
  {
    var n := DoAnswers(w, pid, body);
    if n != w {
      var line := w.processes[pid].inbox[0];
      assert LineOk(w, pid, line);
      hide CallsOk, Mutex, OneLive, PipesOk, SlotInUse, AnswersOk, KillsOk;
      forall p | p in n.processes && n.processes[p].inbox != [] ensures LineOk(n, p, n.processes[p].inbox[0]) {
        var other := w.processes[p].inbox[0];
        assert LineOk(w, p, other);
        if other.caller == line.caller {
          OneDelivery(w, Delivery(line.caller, pid, line.id), Delivery(other.caller, p, other.id));
        }
      }
    }
  }

  lemma StepKeepsUnanswered(w: World, s: Step)
    requires Inv(w) && Unanswered(w)
    ensures Unanswered(Do(w, s))
  {
    hide Inv, Unanswered;
    if s.Write? && s.c in w.calls {
      WriteKeepsUnanswered(w, s.c, s.outcome);
    } else if s.Answers? && s.pid in w.processes {
      AnswersKeepUnanswered(w, s.pid, s.body);
    } else if !s.Write? && !s.Answers? {
      TrafficKept(w, s);
      UnansweredKept(w, Do(w, s));
    }
    hide DoWrite, DoAnswers;
  }

  lemma BlameStays(w: World, s: Step)
    requires CallsOk(w)
    ensures forall p :: TimedOutOn(w, p) ==> TimedOutOn(Do(w, s), p)
  {
    forall p | TimedOutOn(w, p) ensures TimedOutOn(Do(w, s), p) {
      TimedOutStays(w, s, p);
    }
  }

  lemma TimeoutKeepsBlame(w: World, c: CallId)
    requires Blamed(w) && c in w.calls && forall p :: TimedOutOn(w, p) ==> TimedOutOn(DoTimesOut(w, c), p)
    ensures Blamed(DoTimesOut(w, c))
  {
    var n := DoTimesOut(w, c);
    if n != w && !w.calls[c].claim.Pending? {
      assert n.calls[c].told == Some(Raised(BridgeTimeout));
      assert w.calls[c].writtenTo.Some? ==> TimedOutOn(n, w.calls[c].writtenTo.value);
    }
    hide TimedOutOn;
    forall d | d in n.calls && IsHit(n.calls[d]) ensures HitOk(n, d) {
      assert HitOk(w, d);
    }
  }

  lemma TerminateKeepsBlame(w: World, pid: Pid)
    requires Blamed(w) && pid in w.processes
    ensures Blamed(DoProcess(w, Terminate(pid)))
  {
    var n := DoProcess(w, Terminate(pid));
    assert n.calls == w.calls;
    assert forall p :: TimedOutOn(w, p) ==> TimedOutOn(n, p);
    hide TimedOutOn;
    forall d | d in n.calls && IsHit(n.calls[d]) ensures HitOk(n, d) {
      assert HitOk(w, d);
    }
  }

  // Of what a hit call relies on: processes never revive, and no answer comes to it.
  lemma HitStays(w: World, n: World, c: CallId)
    requires c in w.calls && HitOk(w, c) && c in n.calls && (Answered(n, c) ==> Answered(w, c))
    requires n.calls[c].writtenTo == w.calls[c].writtenTo && n.calls[c].claim.Started?
    requires n.calls[c].phase.Failing? ==> n.calls[c].phase == w.calls[c].phase && n.processes.Keys == w.processes.Keys
    requires forall p :: p in w.processes ==> p in n.processes && (n.processes[p].alive ==> w.processes[p].alive)
    ensures HitOk(n, c)
  {
    hide Answered;
  }

  lemma NotOfHit(w: World, pid: Pid, line: Line, c: CallId)
    requires Once(w) && LineOk(w, pid, line) && pid in w.processes && w.processes[pid].alive && c in w.calls && HitOk(w, c)
    ensures line.caller != c
  {
    assert DeliveryOk(w.calls, Delivery(line.caller, pid, line.id));
    hide Answered;
  }

  lemma AnswersKeepBlame(w: World, pid: Pid, body: Body)
    requires Inv(w) && Unanswered(w) && Blamed(w) && pid in w.processes && GoodBody(body)
    ensures Blamed(DoAnswers(w, pid, body))
  {
    hide Inv, Unanswered, HitsOk;
    AnswersKeepHits(w, pid, body);
    var n := DoAnswers(w, pid, body);
    assert n.calls == w.calls;
    assert forall p :: TimedOutOn(w, p) ==> TimedOutOn(n, p);
    hide TimedOutOn;
  }

  lemma AnswersKeepHits(w: World, pid: Pid, body: Body)
    requires Inv(w) && Unanswered(w) && HitsOk(w) && pid in w.processes
    ensures HitsOk(DoAnswers(w, pid, body))
  {
    var n := DoAnswers(w, pid, body);
    if n != w {
      var line := w.processes[pid].inbox[0];
      assert LineOk(w, pid, line);
      hide CallsOk, Mutex, OneLive, Once, PipesOk, SlotInUse, AnswersOk, KillsOk, Unanswered, LineOk, HitOk, IsHit;
      forall d | d in n.calls && IsHit(n.calls[d]) ensures HitOk(n, d) {
        NotOfHit(w, pid, line, d);
        HitDetails(w, d);
        HitStays(w, n, d);
      }
    }
  }

  lemma HitDetails(w: World, c: CallId)
    requires c in w.calls && HitOk(w, c)
    ensures w.calls[c].claim.Started? && w.calls[c].writtenTo.Some?
  {
  }

  // What the reading worker finds: a good answer, or the end of a dead process's output.
  lemma ReadFinds(w: World, c: CallId)
    requires Inv(w) && Unanswered(w) && Blamed(w) && c in w.calls && w.calls[c].phase.Reading?
    ensures w.slot.Ready? && w.slot.pid in w.processes && w.calls[c].writtenTo == Some(w.slot.pid) && w.calls[c].claim.Started?
    ensures var p := w.processes[w.slot.pid];
            if p.outbox == [] then !Answered(w, c)
            else var r := ParseResponse(p.outbox[0], w.calls[c].id); !BreaksBridge(r)
  {
    var pid := w.slot.pid;
    var p := w.processes[pid];
    assert Serving(w, c, p) && w.calls[c].writtenTo == Some(pid) && w.calls[c].claim.Started?;
    hide CallsOk, Mutex, Once, OneLive, PipesOk, SlotInUse, AnswersOk, KillsOk, TimedOutOn, HitsOk;
    if p.outbox == [] {
      assert LineOk(w, pid, p.inbox[0]);
    } else {
      assert Given(c, pid, p.outbox[0].body) in w.given && GoodBody(p.outbox[0].body);
    }
  }

  // What the read changes: its own call's phase, and the output it took from the process.
  lemma ReadFrame(w: World, c: CallId)
    requires c in w.calls && DoReadLine(w, c, false) != w
    ensures var n := DoReadLine(w, c, false);
            && w.slot.Ready? && w.calls[c].phase.Reading? && n.calls.Keys == w.calls.Keys
            && n.calls == w.calls[c := w.calls[c].(phase := n.calls[c].phase)]
            && n.kills == w.kills && n.poisoned == w.poisoned && n.given == w.given
            && n.processes.Keys == w.processes.Keys
            && (forall p :: p in w.processes ==> n.processes[p] == w.processes[p].(outbox := n.processes[p].outbox))
  {
    hide ParseResponse, BreaksBridge;
    OneOutboxRead(w.processes, w.slot.pid);
  }

  lemma OneOutboxRead(processes: map<Pid, Process>, pid: Pid)
    requires pid in processes
    ensures processes[pid].outbox != [] ==>
              var read := processes[pid := processes[pid].(outbox := processes[pid].outbox[1..])];
              forall p :: p in processes ==> read[p] == processes[p].(outbox := read[p].outbox)
  {
  }

  lemma ReadIs(w: World, c: CallId)
    requires Inv(w) && Unanswered(w) && Blamed(w) && c in w.calls && DoReadLine(w, c, false) != w
    ensures var n := DoReadLine(w, c, false);
            && w.slot.Ready? && w.calls[c].phase.Reading? && w.calls[c].claim.Started? && n.calls.Keys == w.calls.Keys
            && n.calls == w.calls[c := w.calls[c].(phase := n.calls[c].phase)]
            && n.kills == w.kills && n.poisoned == w.poisoned && n.given == w.given
            && n.processes.Keys == w.processes.Keys
            && (forall p :: p in w.processes ==> n.processes[p] == w.processes[p].(outbox := n.processes[p].outbox))
            && ((n.calls[c].phase.Returned? && n.calls[c].phase.result != Raised(BridgeTransport))
                || (n.calls[c].phase == Failing(Raised(BridgeTransport)) && n.processes == w.processes && !Answered(w, c)
                    && w.calls[c].writtenTo == Some(w.slot.pid) && w.slot.pid in w.processes && !w.processes[w.slot.pid].alive))
  {
    hide Inv, Unanswered, Blamed, Answered, ParseResponse;
    ReadFrame(w, c);
    ReadFinds(w, c);
  }

  lemma FreshHit(w: World, n: World, c: CallId)
    requires OneLive(w) && c in w.calls && w.slot.Ready? && w.calls[c].writtenTo == Some(w.slot.pid)
    requires w.slot.pid in w.processes && !w.processes[w.slot.pid].alive && w.calls[c].claim.Started? && !Answered(w, c)
    requires n.processes == w.processes && n.given == w.given
    requires n.calls == w.calls[c := w.calls[c].(phase := Failing(Raised(BridgeTransport)))]
    ensures HitOk(n, c)
  {
  }

  lemma ReadKeepsHits(w: World, c: CallId)
    requires Inv(w) && Unanswered(w) && Blamed(w) && c in w.calls
    ensures HitsOk(DoReadLine(w, c, false))
  {
    hide CallsOk, Mutex, OneLive, Once, PipesOk, SlotInUse, AnswersOk, KillsOk, Unanswered, DoReadLine, StopsBlamed, HitOk,
         Answered;
    var n := DoReadLine(w, c, false);
    if n != w {
      ReadIs(w, c);
      SameAnswers(w, n);
      forall d | d in n.calls && IsHit(n.calls[d]) ensures HitOk(n, d) {
        if n.calls[d].phase == Failing(Raised(BridgeTransport)) && d == c {
          FreshHit(w, n, c);
        } else {
          HitDetails(w, d);
          HitStays(w, n, d);
        }
      }
    }
  }

  lemma SameAnswers(w: World, n: World)
    requires n.given == w.given
    ensures forall c :: Answered(n, c) == Answered(w, c)
  {
  }

  // No process was stopped and no call left by a panic: the stops of before are all there is.
  lemma StopsStay(w: World, n: World)
    requires StopsBlamed(w) && n.kills == w.kills && n.given == w.given && !n.poisoned
    requires forall p :: TimedOutOn(w, p) ==> TimedOutOn(n, p)
    requires forall c :: c in n.calls ==> !n.calls[c].phase.Panicked? && !n.calls[c].phase.Clearing?
    requires forall p :: p in n.processes && !n.processes[p].alive ==>
               p in w.processes && !w.processes[p].alive && (w.processes[p].terminated ==> n.processes[p].terminated)
    ensures StopsBlamed(n)
  {
    hide TimedOutOn;
  }

  lemma ReadKeepsBlame(w: World, c: CallId)
    requires Inv(w) && Unanswered(w) && Blamed(w) && c in w.calls
    requires forall p :: TimedOutOn(w, p) ==> TimedOutOn(DoReadLine(w, c, false), p)
    ensures Blamed(DoReadLine(w, c, false))
  {
    hide Inv, Unanswered, TimedOutOn, HitsOk, DoReadLine, Answered;
    ReadKeepsHits(w, c);
    var n := DoReadLine(w, c, false);
    if n != w {
      ReadIs(w, c);
      ReadLeavesNone(w, n, c);
      StopsStay(w, n);
    }
  }

  lemma ReadLeavesNone(w: World, n: World, c: CallId)
    requires StopsBlamed(w) && c in w.calls && c in n.calls && n.calls == w.calls[c := w.calls[c].(phase := n.calls[c].phase)]
    requires n.calls[c].phase.Returned? || n.calls[c].phase.Failing?
    ensures forall d :: d in n.calls ==> !n.calls[d].phase.Panicked? && !n.calls[d].phase.Clearing?
  {
    hide TimedOutOn;
  }

  /** The other steps of a call, when nothing fails by itself. */
  predicate QuietStep(s: Step) {
    Calm(s) && !s.ReadLine? && !s.TimesOut? && !s.Terminate? && !s.Answers?
  }

  // No process that runs is stopped, none revives, and a new one runs.
  predicate ProcessesStay(w: World, n: World) {
    && (forall p :: p in w.processes ==> p in n.processes && n.processes[p].alive == w.processes[p].alive)
    && (forall p :: p in w.processes && w.processes[p].terminated ==> n.processes[p].terminated)
    && (forall p :: p in n.processes && p !in w.processes ==> n.processes[p].alive)
  }

  lemma RetireFailedStopsNone(w: World, c: CallId)
    requires OneLive(w) && HitsOk(w) && c in w.calls
    ensures ProcessesStay(w, DoRetireFailed(w, c))
  {
    if w.calls[c].phase.Failing? {
      assert HitOk(w, c);
    }
    hide Answered, HitsOk;
  }

  lemma CheckStopsNone(w: World, c: CallId)
    requires c in w.calls
    ensures ProcessesStay(w, DoCheckExited(w, c, false))
  {
  }

  lemma QuietKeepsProcesses(w: World, s: Step)
    requires Inv(w) && Blamed(w) && QuietStep(s)
    ensures ProcessesStay(w, Do(w, s))
  {
    hide CallsOk, Mutex, OneLive, Once, PipesOk, SlotInUse, AnswersOk, KillsOk, HitsOk, TimedOutOn;
    if s.RetireFailed? && s.c in w.calls {
      RetireFailedStopsNone(w, s.c);
    } else if s.CheckExited? && s.c in w.calls {
      CheckStopsNone(w, s.c);
    } else if s.Write? && s.c in w.calls {
      WriteStopsNone(w, s.c, s.outcome);
    } else if s.Launch? && s.c in w.calls {
      LaunchStopsNone(w, s.c, s.started);
    }
    hide DoRetireFailed, DoCheckExited, DoReadLine, DoWrite, DoLaunch, DoTimesOut, DoProcess;
  }

  lemma WriteStopsNone(w: World, c: CallId, outcome: WriteOutcome)
    requires c in w.calls
    ensures ProcessesStay(w, DoWrite(w, c, outcome))
  {
  }

  lemma LaunchStopsNone(w: World, c: CallId, started: Option<Pid>)
    requires c in w.calls
    ensures ProcessesStay(w, DoLaunch(w, c, started))
  {
  }

  lemma QuietStopsNone(w: World, s: Step)
    requires !w.poisoned && QuietStep(s)
    ensures Do(w, s).kills == w.kills && Do(w, s).given == w.given && !Do(w, s).poisoned
  {
    hide DoReadLine, DoTimesOut, DoProcess, Killed;
  }

  // And it leaves no call by a panic, and makes none a hit one.
  lemma QuietHitsNone(w: World, s: Step, d: CallId)
    requires Blamed(w) && QuietStep(s) && d in Do(w, s).calls
    ensures var n := Do(w, s);
            && !n.calls[d].phase.Panicked? && !n.calls[d].phase.Clearing?
            && (IsHit(n.calls[d]) ==> d in w.calls && IsHit(w.calls[d]))
  {
    if d in w.calls && s.c != d {
      OthersStay(w, s, d);
      hide Do, TimedOutOn, HitsOk;
    } else {
      QuietOwnStep(w, s, d);
    }
  }

  // A call's own step of this kind.
  lemma QuietOwnStep(w: World, s: Step, d: CallId)
    requires Blamed(w) && QuietStep(s) && d in Do(w, s).calls && (d in w.calls ==> s.c == d)
    ensures var n := Do(w, s);
            && !n.calls[d].phase.Panicked? && !n.calls[d].phase.Clearing?
            && (IsHit(n.calls[d]) ==> d in w.calls && IsHit(w.calls[d]))
  {
    if LongStep(s) {
      QuietLongStep(w, s, d);
      hide Do;
    } else {
      hide TimedOutOn, Answered, HitsOk, Killed, DoReadLine, DoWrite, DoCheckExited, DoRetireFailed, DoLaunch, DoTimesOut, DoProcess;
    }
  }

  lemma QuietLongStep(w: World, s: Step, d: CallId)
    requires Blamed(w) && QuietStep(s) && LongStep(s) && d in Do(w, s).calls && (d in w.calls ==> s.c == d)
    ensures var n := Do(w, s);
            && !n.calls[d].phase.Panicked? && !n.calls[d].phase.Clearing?
            && (IsHit(n.calls[d]) ==> d in w.calls && IsHit(w.calls[d]))
  {
    if d in w.calls && IsHit(w.calls[d]) {
      assert HitOk(w, d);
    }
    hide TimedOutOn, Answered, HitsOk, Killed, DoReadLine, DoTimesOut, DoProcess;
  }

  lemma QuietKeepsFailing(w: World, s: Step, d: CallId)
    requires Mutex(w) && QuietStep(s) && d in w.calls && d in Do(w, s).calls && Do(w, s).calls[d].phase.Failing?
    ensures Do(w, s).calls[d].phase == w.calls[d].phase && Do(w, s).processes.Keys == w.processes.Keys
  {
    if s.c != d {
      OthersStay(w, s, d);
    }
    if !s.Launch? {
      OthersAddNone(w, s);
    }
    hide Killed, DoReadLine, DoTimesOut, DoProcess;
  }

  lemma QuietKeepsHits(w: World, s: Step)
    requires Inv(w) && Blamed(w) && QuietStep(s)
    ensures HitsOk(Do(w, s))
  {
    QuietKeepsProcesses(w, s);
    QuietStopsNone(w, s);
    var n := Do(w, s);
    hide Inv, Do, HitOk, IsHit, StopsBlamed, QuietStep, CallsOk, Mutex, OneLive, Once, PipesOk, SlotInUse, AnswersOk, KillsOk;
    forall d | d in n.calls && IsHit(n.calls[d]) ensures HitOk(n, d) {
      QuietHitsNone(w, s, d);
      HitDetails(w, d);
      WrittenToStays(w, s, d);
      if n.calls[d].phase.Failing? {
        QuietKeepsFailing(w, s, d);
      }
      HitStays(w, n, d);
    }
  }

  lemma QuietKeepsBlame(w: World, s: Step)
    requires Inv(w) && Blamed(w) && QuietStep(s)
    ensures Blamed(Do(w, s))
  {
    QuietKeepsHits(w, s);
    QuietKeepsProcesses(w, s);
    QuietStopsNone(w, s);
    BlameStays(w, s);
    hide Inv, Do, HitsOk, TimedOutOn;
    var n := Do(w, s);
    forall d | d in n.calls ensures !n.calls[d].phase.Panicked? && !n.calls[d].phase.Clearing? {
      QuietHitsNone(w, s, d);
    }
    hide StopsBlamed;
    StopsStay(w, n);
  }

  lemma CalmStepKeepsBlame(w: World, s: Step)
    requires Inv(w) && Unanswered(w) && Blamed(w) && Calm(s)
    ensures Blamed(Do(w, s))
  {
    BlameStays(w, s);
    hide Inv, Unanswered, Blamed, TimedOutOn;
    if s.ReadLine? && s.c in w.calls {
      ReadKeepsBlame(w, s.c);
    } else if s.TimesOut? && s.c in w.calls {
      TimeoutKeepsBlame(w, s.c);
    } else if s.Terminate? && s.pid in w.processes {
      TerminateKeepsBlame(w, s.pid);
    } else if s.Answers? && s.pid in w.processes {
      AnswersKeepBlame(w, s.pid, s.body);
    } else if QuietStep(s) {
      QuietKeepsBlame(w, s);
    }
    hide DoReadLine, DoTimesOut, DoAnswers, Killed;
  }

  lemma {:induction false} CalmRunIsBlamed(w: World, steps: seq<Step>)
    requires Inv(w) && Unanswered(w) && Blamed(w) && forall s :: s in steps ==> Calm(s)
    ensures var n := RunFrom(w, steps); Inv(n) && Unanswered(n) && Blamed(n)
    decreases |steps|
  {
    if steps != [] {
      var front, last := steps[..|steps| - 1], steps[|steps| - 1];
      CalmRunIsBlamed(w, front);
      hide Inv, Unanswered, Blamed, Do, Calm;
      StepKeepsInv(RunFrom(w, front), last);
      StepKeepsUnanswered(RunFrom(w, front), last);
      CalmStepKeepsBlame(RunFrom(w, front), last);
    }
  }

  lemma CalmRun(first: Option<Pid>, steps: seq<Step>)
    requires forall s :: s in steps ==> Calm(s)
    ensures var w := RunFrom(Start(first), steps); Inv(w) && Unanswered(w) && Blamed(w)
  {
    StartKeepsInv(first);
    CalmRunIsBlamed(Start(first), steps);
    hide RunFrom, Inv;
  }

  /** Another request, written to the same process, timed out. */
  predicate OtherTimedOut(w: World, c: CallId)
    requires c in w.calls
  {
    w.calls[c].writtenTo.Some?
    && exists d :: d in w.calls && d != c && w.calls[d].told == Some(Raised(BridgeTimeout))
                   && w.calls[d].writtenTo == w.calls[c].writtenTo
  }

  /** When nothing fails by itself, a request ends in `bridge_transport` only if another request
      written to the same process timed out. */
  lemma OnlyTimeoutsBreakCalmRuns(first: Option<Pid>, steps: seq<Step>, c: CallId)
    requires forall s :: s in steps ==> Calm(s)
    requires var w := RunFrom(Start(first), steps); c in w.calls && w.calls[c].told == Some(Raised(BridgeTransport))
    ensures OtherTimedOut(RunFrom(Start(first), steps), c)
  {
    CalmRun(first, steps);
    var w := RunFrom(Start(first), steps);
    hide RunFrom, Inv, Unanswered;
    assert HitOk(w, c);
    var p := w.calls[c].writtenTo.value;
    assert TimedOutOn(w, p);
    var d :| d in w.calls && w.calls[d].told == Some(Raised(BridgeTimeout)) && w.calls[d].writtenTo == Some(p);
  }

  /** In a run where nothing fails by itself, a claimed request that was told something other than a
      timeout ended in `bridge_transport` if and only if it was never answered; its process was then
      stopped, for another request written to it. */
  lemma HitExactlyWhen(first: Option<Pid>, steps: seq<Step>, c: CallId)
    requires forall s :: s in steps ==> Calm(s)
    requires var w := RunFrom(Start(first), steps);
             c in w.calls && w.calls[c].claim.Started? && w.calls[c].told.Some? && w.calls[c].told.value != Raised(BridgeTimeout)
    ensures var w := RunFrom(Start(first), steps);
            && (w.calls[c].told.value == Raised(BridgeTransport) <==> !Answered(w, c))
            && (!Answered(w, c) ==>
                  && OtherTimedOut(w, c) && w.calls[c].writtenTo.value in w.processes
                  && w.processes[w.calls[c].writtenTo.value].terminated)
  {
    CalmRun(first, steps);
    var w := RunFrom(Start(first), steps);
    if w.calls[c].told.value == Raised(BridgeTransport) {
      OnlyTimeoutsBreakCalmRuns(first, steps, c);
      hide RunFrom, Inv, Unanswered, TimedOutOn, OtherTimedOut;
      assert HitOk(w, c);
    } else {
      hide RunFrom, Mutex, OneLive, Once, PipesOk, SlotInUse, KillsOk, Blamed, Unanswered, OtherTimedOut;
      assert CallOk(w.calls[c]);
      assert AnswerOk(w, c, w.calls[c].told.value);
    }
  }

  // ---------------------------------------------------------------- which request is safe

  /** The worker has a process for its request: it is claiming, writing or reading. */
  predicate HasProcess(phase: Phase) { phase.Claiming? || phase.Writing? || phase.Reading? }

  /** Every other request written to the process was already told something other than a timeout. */
  predicate OthersSettled(w: World, c: CallId, p: Pid) {
    forall d :: d in w.calls && d != c && w.calls[d].writtenTo == Some(p) ==>
      w.calls[d].told.Some? && w.calls[d].told.value != Raised(BridgeTimeout)
  }

  predicate Spared(w: World, c: CallId, p: Pid) {
    c in w.calls
    && if w.calls[c].told.Some? then w.calls[c].told.value != Raised(BridgeTransport)
       else if w.calls[c].phase.Returned? then w.calls[c].phase.result != Raised(BridgeTransport)
       else HasProcess(w.calls[c].phase) && w.calls[c].writtenTo == Some(p) && OthersSettled(w, c, p)
  }

  // While its worker has the process, no other call comes to it.
  lemma OthersStaySettled(w: World, s: Step, c: CallId, p: Pid)
    requires Mutex(w) && c in w.calls && HasProcess(w.calls[c].phase) && OthersSettled(w, c, p)
    ensures OthersSettled(Do(w, s), c, p)
  {
    var n := Do(w, s);
    forall d | d in n.calls && d != c && n.calls[d].writtenTo == Some(p)
      ensures n.calls[d].told.Some? && n.calls[d].told.value != Raised(BridgeTimeout)
    {
      NoneComes(w, s, c, d);
      hide Do;
      ToldStays(w, s, d);
    }
  }

  lemma NoneComes(w: World, s: Step, c: CallId, d: CallId)
    requires Mutex(w) && c in w.calls && HasProcess(w.calls[c].phase) && d != c && d in Do(w, s).calls
    ensures Do(w, s).calls[d].writtenTo.Some? ==> d in w.calls && w.calls[d].writtenTo == Do(w, s).calls[d].writtenTo
  {
    if d !in w.calls {
      NewCallIsUnwritten(w, s, d);
      hide Do;
    } else if s.Terminate? || s.Dies? || s.Answers? || s.c != d {
      OthersStay(w, s, d);
      hide Do;
    } else if LongStep(s) {
      LongStepMovesOn(w, s);
      hide Do;
    } else {
      hide DoReadLine, DoWrite, DoCheckExited, DoRetireFailed, DoLaunch, DoProcess, Retire;
    }
  }

  lemma NewCallIsUnwritten(w: World, s: Step, d: CallId)
    requires d !in w.calls && d in Do(w, s).calls
    ensures Do(w, s).calls[d].writtenTo.None?
  {
    if !s.Terminate? && !s.Dies? && !s.Answers? && LongStep(s) && s.c in w.calls {
      LongStepMovesOn(w, s);
    }
    hide DoReadLine, DoWrite, DoCheckExited, DoRetireFailed, DoLaunch, Retire, Killed;
  }

  // Its own steps lead it to its result, of which only a stopped process makes a broken bridge.
  lemma OwnStepSpares(w: World, s: Step, c: CallId, p: Pid)
    requires Calm(s) && !s.ReadLine? && Spared(w, c, p) && w.calls[c].told.None? && HasProcess(w.calls[c].phase)
    requires OthersSettled(Do(w, s), c, p)
    ensures Spared(Do(w, s), c, p)
  {
    hide ParseResponse, Killed, OthersSettled, DoReadLine;
  }

  lemma ReadSpares(w: World, c: CallId, p: Pid)
    requires Inv(w) && Unanswered(w) && Blamed(w)
    requires Spared(w, c, p) && w.calls[c].told.None? && w.calls[c].phase.Reading? && OthersSettled(DoReadLine(w, c, false), c, p)
    ensures Spared(DoReadLine(w, c, false), c, p)
  {
    if DoReadLine(w, c, false) != w {
      ReadIs(w, c);
      hide Inv, Unanswered, DoReadLine, HitsOk;
      assert !TimedOutOn(w, p);
    }
  }

  lemma SettledStaysSpared(w: World, s: Step, c: CallId)
    requires c in w.calls && w.calls[c].phase.Returned? && w.calls[c].told.None?
    ensures c in Do(w, s).calls && Do(w, s).calls[c].phase == w.calls[c].phase
    ensures Do(w, s).calls[c].told.None? || Do(w, s).calls[c].told == Some(w.calls[c].phase.result)
            || Do(w, s).calls[c].told.value in [Raised(BridgeBusy), Raised(BridgeTimeout)]
  {
    if s.Terminate? || s.Dies? || s.Answers? || s.c != c {
      OthersStay(w, s, c);
      hide Do;
    } else {
      hide ParseResponse, Killed, DoProcess;
    }
  }

  lemma StepSpares(w: World, s: Step, c: CallId, p: Pid)
    requires Inv(w) && Unanswered(w) && Blamed(w) && Calm(s) && Spared(w, c, p)
    ensures Spared(Do(w, s), c, p)
  {
    hide Do, Unanswered, Blamed, CallsOk, OneLive, Once, PipesOk, SlotInUse, AnswersOk, KillsOk;
    if w.calls[c].told.Some? {
      ToldStays(w, s, c);
    } else if w.calls[c].phase.Returned? {
      SettledStaysSpared(w, s, c);
    } else {
      OthersStaySettled(w, s, c, p);
      if s.ReadLine? {
        ReadStepSpares(w, s, c, p);
      } else {
        OwnStepSpares(w, s, c, p);
      }
    }
  }

  lemma ReadStepSpares(w: World, s: Step, c: CallId, p: Pid)
    requires Inv(w) && Unanswered(w) && Blamed(w) && s.ReadLine? && Calm(s)
    requires Spared(w, c, p) && w.calls[c].told.None? && HasProcess(w.calls[c].phase) && OthersSettled(Do(w, s), c, p)
    ensures Spared(Do(w, s), c, p)
  {
    if s.c == c && w.calls[c].phase.Reading? {
      ReadSpares(w, c, p);
    }
    hide Inv, Unanswered, Blamed, OthersSettled, ParseResponse;
  }

  lemma {:induction false} RunSpares(w: World, steps: seq<Step>, c: CallId, p: Pid)
    requires Inv(w) && Unanswered(w) && Blamed(w) && Spared(w, c, p) && forall s :: s in steps ==> Calm(s)
    ensures Spared(RunFrom(w, steps), c, p)
    decreases |steps|
  {
    if steps != [] {
      var front, last := steps[..|steps| - 1], steps[|steps| - 1];
      RunSpares(w, front, c, p);
      CalmRunIsBlamed(w, front);
      hide Inv, Unanswered, Blamed, Do, Calm, Spared;
      StepSpares(RunFrom(w, front), last, c, p);
    }
  }

  /** What a caller can know beforehand: a request that has its process when every other request ever
      written to it was told something other than a timeout is never hit, whatever happens later
      short of a failure of its own. */
  lemma SettledProcessNeverHits(first: Option<Pid>, before: seq<Step>, after: seq<Step>, c: CallId)
    requires (forall s :: s in before ==> Calm(s)) && (forall s :: s in after ==> Calm(s))
    requires var w := RunFrom(Start(first), before);
             && c in w.calls && HasProcess(w.calls[c].phase) && w.calls[c].told.None? && w.calls[c].writtenTo.Some?
             && OthersSettled(w, c, w.calls[c].writtenTo.value)
    ensures var n := RunFrom(RunFrom(Start(first), before), after);
            c in n.calls && n.calls[c].told != Some(Raised(BridgeTransport))
  {
    CalmRun(first, before);
    var w := RunFrom(Start(first), before);
    hide RunFrom, Inv, Unanswered, Blamed;
    RunSpares(w, after, c, w.calls[c].writtenTo.value);
  }

  function OneRequest(c: CallId): seq<Step> {
    [Arrive(c), Acquire(c), LoadClaim(c), CheckExited(c, false), Look(c), ClaimRequest(c), Write(c, Wrote)]
  }

  lemma RunStep(w: World, steps: seq<Step>, s: Step)
    ensures RunFrom(w, steps + [s]) == Do(RunFrom(w, steps), s)
  {
    assert (steps + [s])[..|steps|] == steps;
  }

  lemma {:induction false} RunTwice(w: World, a: seq<Step>, b: seq<Step>)
    ensures RunFrom(w, a + b) == RunFrom(RunFrom(w, a), b)
    decreases |b|
  {
    if b == [] {
      assert a + b == a;
    } else {
      assert (a + b)[..|a + b| - 1] == a + b[..|b| - 1];
      RunTwice(w, a, b[..|b| - 1]);
    }
  }

  lemma SevenSteps(w: World, s: seq<Step>)
    requires |s| == 7
    ensures RunFrom(w, s) == Do(Do(Do(Do(Do(Do(Do(w, s[0]), s[1]), s[2]), s[3]), s[4]), s[5]), s[6])
  {
    hide Do;
    assert s[..7] == s && s[..0] == [];
    assert RunFrom(w, s[..0]) == w;
    forall k | 0 <= k < 7 ensures RunFrom(w, s[..k + 1]) == Do(RunFrom(w, s[..k]), s[k]) {
      assert s[..k + 1] == s[..k] + [s[k]];
      RunStep(w, s[..k], s[k]);
    }
    assert RunFrom(w, s[..0 + 1]) == Do(w, s[0]);
    assert RunFrom(w, s[..1 + 1]) == Do(RunFrom(w, s[..1]), s[1]);
    assert RunFrom(w, s[..2 + 1]) == Do(RunFrom(w, s[..2]), s[2]);
    assert RunFrom(w, s[..3 + 1]) == Do(RunFrom(w, s[..3]), s[3]);
    assert RunFrom(w, s[..4 + 1]) == Do(RunFrom(w, s[..4]), s[4]);
    assert RunFrom(w, s[..5 + 1]) == Do(RunFrom(w, s[..5]), s[5]);
    assert RunFrom(w, s[..6 + 1]) == Do(RunFrom(w, s[..6]), s[6]);
  }

  predicate Free(w: World, pid: Pid) {
    w.holder.None? && !w.poisoned && w.slot == Ready(pid) && pid in w.processes && w.processes[pid].alive
  }

  // A request at a free lock with a running process reaches its claim, then its process.
  lemma RequestIsClaiming(w: World, c: CallId, pid: Pid)
    requires c !in w.calls && Free(w, pid)
    ensures Do(Do(Do(Do(Do(w, Arrive(c)), Acquire(c)), LoadClaim(c)), CheckExited(c, false)), Look(c))
              == At(w, c, Call(Claiming, Pending, Some(pid), 0, None)).(holder := Some(c))
  {
    RequestEnters(w, c, pid);
    EnteredLooks(w, c, pid);
    hide Do;
  }

  lemma RequestEnters(w: World, c: CallId, pid: Pid)
    requires c !in w.calls && Free(w, pid)
    ensures Do(Do(w, Arrive(c)), Acquire(c)) == At(w, c, Call(Entered, Pending, None, 0, None)).(holder := Some(c))
  {
    var w1 := Do(w, Arrive(c));
    assert w1 == At(w, c, Call(Waiting, Pending, None, 0, None));
  }

  lemma EnteredLooks(w: World, c: CallId, pid: Pid)
    requires c !in w.calls && Free(w, pid)
    ensures var entered := At(w, c, Call(Entered, Pending, None, 0, None)).(holder := Some(c));
            Do(Do(Do(entered, LoadClaim(c)), CheckExited(c, false)), Look(c))
              == At(w, c, Call(Claiming, Pending, Some(pid), 0, None)).(holder := Some(c))
  {
    var entered := At(w, c, Call(Entered, Pending, None, 0, None)).(holder := Some(c));
    var w3 := Do(entered, LoadClaim(c));
    assert w3 == At(w, c, Call(Recovering, Pending, None, 0, None)).(holder := Some(c));
    var w4 := Do(w3, CheckExited(c, false));
    assert w4 == At(w, c, Call(Looking, Pending, None, 0, None)).(holder := Some(c));
  }

  lemma ClaimThenWrite(w: World, c: CallId, pid: Pid)
    requires Free(w, pid)
    ensures var p := w.processes[pid];
            var claiming := At(w, c, Call(Claiming, Pending, Some(pid), 0, None)).(holder := Some(c));
            Do(Do(claiming, ClaimRequest(c)), Write(c, Wrote)) ==
              w.(calls := w.calls[c := Call(Reading, Started, Some(pid), p.nextId, None)], holder := Some(c),
                 processes := w.processes[pid := p.(nextId := p.nextId + 1, inbox := p.inbox + [Line(p.nextId, c)])],
                 deliveries := w.deliveries + [Delivery(c, pid, p.nextId)])
  {
    var claiming := At(w, c, Call(Claiming, Pending, Some(pid), 0, None)).(holder := Some(c));
    var writing := At(w, c, Call(Writing, Started, Some(pid), 0, None)).(holder := Some(c));
    assert Do(claiming, ClaimRequest(c)) == writing by {
      assert claiming.calls[c := writing.calls[c]] == writing.calls;
    }
    assert Do(writing, Write(c, Wrote)) == DoWrite(writing, c, Wrote);
    hide Do, DoClaim;
    assert writing.calls[c := Call(Reading, Started, Some(pid), w.processes[pid].nextId, None)]
        == w.calls[c := Call(Reading, Started, Some(pid), w.processes[pid].nextId, None)];
  }

  lemma RequestIsWritten(w: World, c: CallId, pid: Pid)
    requires c !in w.calls && Free(w, pid)
    ensures var p := w.processes[pid];
            RunFrom(w, OneRequest(c)) ==
              w.(calls := w.calls[c := Call(Reading, Started, Some(pid), p.nextId, None)], holder := Some(c),
                 processes := w.processes[pid := p.(nextId := p.nextId + 1, inbox := p.inbox + [Line(p.nextId, c)])],
                 deliveries := w.deliveries + [Delivery(c, pid, p.nextId)])
  {
    SevenSteps(w, OneRequest(c));
    RequestIsClaiming(w, c, pid);
    ClaimThenWrite(w, c, pid);
    hide RunFrom, Do;
  }

  /** The worker of `c` waits for the process's answer, and nothing else is pending. */
  predicate Awaiting(w: World, c: CallId, pid: Pid, told: Option<Result>) {
    && w.holder == Some(c) && !w.poisoned && w.slot == Ready(pid) && c in w.calls && pid in w.processes
    && w.calls[c] == Call(Reading, Started, Some(pid), w.calls[c].id, told)
    && w.processes[pid].inbox == [Line(w.calls[c].id, c)] && w.processes[pid].outbox == []
  }

  lemma WrittenAwaits(w: World, c: CallId, pid: Pid)
    requires c !in w.calls && Free(w, pid) && Quiet(w.processes[pid])
    ensures var n := RunFrom(w, OneRequest(c));
            && Awaiting(n, c, pid, None) && n.processes[pid].alive && n.calls.Keys == w.calls.Keys + {c}
            && n.kills == w.kills && Sent(n, c)
  {
    RequestIsWritten(w, c, pid);
    hide RunFrom;
    var n := RunFrom(w, OneRequest(c));
    assert n.deliveries[|w.deliveries|].caller == c;
  }

  lemma TimesOutAwaiting(w: World, c: CallId, pid: Pid)
    requires Awaiting(w, c, pid, None) && w.processes[pid].alive
    ensures var n := Do(w, TimesOut(c));
            && Awaiting(n, c, pid, Some(Raised(BridgeTimeout)))
            && n.processes[pid].alive && pid in n.kills && n.calls.Keys == w.calls.Keys
  {
  }

  lemma AnswersAwaiting(w: World, c: CallId, pid: Pid, told: Option<Result>)
    requires Awaiting(w, c, pid, told) && w.processes[pid].alive
    ensures var n := Do(w, Answers(pid, Done(0)));
            n == w.(processes := n.processes, given := n.given) && pid in n.processes
            && n.processes[pid] == Process(true, w.processes[pid].terminated, w.processes[pid].nextId, [],
                                           [Response(Some(w.calls[c].id), Done(0))])
  {
  }

  lemma ReadsAnswer(w: World, c: CallId, pid: Pid)
    requires c in w.calls && w.calls[c].phase.Reading? && w.slot == Ready(pid) && pid in w.processes && !w.poisoned
    requires w.processes[pid].inbox == [] && w.processes[pid].outbox == [Response(Some(w.calls[c].id), Done(0))]
    requires w.processes[pid].alive
    ensures var n := Do(w, ReadLine(c, false));
            && Free(n, pid) && Quiet(n.processes[pid]) && n.kills == w.kills && n.calls.Keys == w.calls.Keys
            && n.calls[c].told == w.calls[c].told
  {
  }

  lemma FirstTimesOut(w: World, pid: Pid)
    requires Free(w, pid) && Quiet(w.processes[pid]) && 1 !in w.calls
    ensures var n := Do(Do(Do(RunFrom(w, OneRequest(1)), TimesOut(1)), Answers(pid, Done(0))), ReadLine(1, false));
            && Free(n, pid) && Quiet(n.processes[pid]) && pid in n.kills && n.calls.Keys == w.calls.Keys + {1}
  {
    WrittenAwaits(w, 1, pid);
    var w1 := RunFrom(w, OneRequest(1));
    TimesOutAwaiting(w1, 1, pid);
    var w2 := Do(w1, TimesOut(1));
    AnswersAwaiting(w2, 1, pid, Some(Raised(BridgeTimeout)));
    ReadsAnswer(Do(w2, Answers(pid, Done(0))), 1, pid);
    hide RunFrom, Do;
  }

  lemma KilledAwaiting(w: World, c: CallId, pid: Pid)
    requires Awaiting(w, c, pid, None) && pid in w.kills
    ensures var n := Do(Do(w, Terminate(pid)), ReadLine(c, false));
            c in n.calls && n.calls[c] == w.calls[c].(phase := Failing(Raised(BridgeTransport))) && n.deliveries == w.deliveries
  {
    var n := Do(w, Terminate(pid));
    assert n.calls == w.calls && n.slot == w.slot && !n.processes[pid].alive && n.processes[pid].outbox == [];
  }

  lemma FailingIsTold(w: World, c: CallId)
    requires c in w.calls && w.calls[c].phase.Failing? && w.calls[c].told.None?
    ensures var n := Do(Do(w, RetireFailed(c)), Deliver(c));
            c in n.calls && n.calls[c].told == Some(w.calls[c].phase.failure) && n.deliveries == w.deliveries
  {
    var n := Do(w, RetireFailed(c));
    assert n.calls[c].phase == Returned(w.calls[c].phase.failure) && n.calls[c].told.None?;
  }

  lemma SecondIsHit(w: World, pid: Pid)
    requires Free(w, pid) && Quiet(w.processes[pid]) && 2 !in w.calls && pid in w.kills
    ensures var n := Do(Do(Do(Do(RunFrom(w, OneRequest(2)), Terminate(pid)), ReadLine(2, false)), RetireFailed(2)), Deliver(2));
            2 in n.calls && n.calls[2].told == Some(Raised(BridgeTransport)) && Sent(n, 2)
  {
    WrittenAwaits(w, 2, pid);
    var w1 := RunFrom(w, OneRequest(2));
    KilledAwaiting(w1, 2, pid);
    FailingIsTold(Do(Do(w1, Terminate(pid)), ReadLine(2, false)), 2);
    hide RunFrom, Do;
  }

  /** The run in which a request's kill comes after its process was given to the next request. */
  function LateKillRun(pid: Pid): seq<Step> {
    OneRequest(1) + [TimesOut(1), Answers(pid, Done(0)), ReadLine(1, false)]
    + OneRequest(2) + [Terminate(pid), ReadLine(2, false), RetireFailed(2), Deliver(2)]
  }

  lemma ThreeMore(w: World, steps: seq<Step>, a: Step, b: Step, c: Step)
    ensures RunFrom(w, steps + [a, b, c]) == Do(Do(Do(RunFrom(w, steps), a), b), c)
  {
    hide Do;
    RunStep(w, steps, a);
    RunStep(w, steps + [a], b);
    RunStep(w, steps + [a] + [b], c);
    assert steps + [a, b, c] == steps + [a] + [b] + [c];
  }

  lemma LateKillRunIsCalm(pid: Pid)
    ensures forall s :: s in LateKillRun(pid) ==> Calm(s) && s != TimesOut(2)
  {
    forall s | s in LateKillRun(pid) ensures Calm(s) && s != TimesOut(2) {
      assert s in OneRequest(1) || s in OneRequest(2)
             || s in [TimesOut(1), Answers(pid, Done(0)), ReadLine(1, false)]
             || s in [Terminate(pid), ReadLine(2, false), RetireFailed(2), Deliver(2)];
    }
  }

  lemma LateKillFrom(w: World, pid: Pid)
    requires Free(w, pid) && Quiet(w.processes[pid]) && w.calls == map[]
    ensures var n := RunFrom(w, LateKillRun(pid));
            2 in n.calls && n.calls[2].told == Some(Raised(BridgeTransport)) && Sent(n, 2)
  {
    hide RunFrom, Do, OneRequest, Sent, Quiet, Free;
    FirstTimesOut(w, pid);
    var first := [TimesOut(1), Answers(pid, Done(0)), ReadLine(1, false)];
    var second := [Terminate(pid), ReadLine(2, false), RetireFailed(2)];
    var w1 := RunFrom(w, OneRequest(1) + first);
    ThreeMore(w, OneRequest(1), TimesOut(1), Answers(pid, Done(0)), ReadLine(1, false));
    SecondIsHit(w1, pid);
    ThreeMore(w1, OneRequest(2), Terminate(pid), ReadLine(2, false), RetireFailed(2));
    RunStep(w1, OneRequest(2) + second, Deliver(2));
    RunTwice(w, OneRequest(1) + first, OneRequest(2) + second + [Deliver(2)]);
    assert second + [Deliver(2)] == [Terminate(pid), ReadLine(2, false), RetireFailed(2), Deliver(2)];
    assert LateKillRun(pid) == (OneRequest(1) + first) + (OneRequest(2) + second + [Deliver(2)]);
  }

  /** The stop that a timed-out request orders is not confined to it: with nothing failing by itself,
      a second request that never timed out can be hit, and ends in `bridge_transport`. */
  lemma LateKillHitsNextRequest(pid: Pid)
    ensures forall s :: s in LateKillRun(pid) ==> Calm(s) && s != TimesOut(2)
    ensures var w := RunFrom(Start(Some(pid)), LateKillRun(pid));
            2 in w.calls && w.calls[2].told == Some(Raised(BridgeTransport)) && Sent(w, 2)
  {
    LateKillRunIsCalm(pid);
    hide RunFrom, LateKillRun, Sent;
    LateKillFrom(Start(Some(pid)), pid);
  }

  // ---------------------------------------------------------------- which request can be hit, exactly

  /** In this continuation nothing fails by itself, and the request ends in `bridge_transport`. */
  ghost predicate HitIn(w: World, after: seq<Step>, c: CallId) {
    && (forall s :: s in after ==> Calm(s))
    && c in RunFrom(w, after).calls && RunFrom(w, after).calls[c].told == Some(Raised(BridgeTransport))
  }

  /** The worker of `c` is to read from its process, which has no answer for it. */
  predicate Starved(w: World, c: CallId, p: Pid) {
    && c in w.calls && w.calls[c].phase.Reading? && w.calls[c].told.None? && w.calls[c].writtenTo == Some(p)
    && w.slot == Ready(p) && p in w.processes && w.processes[p].outbox == []
  }

  lemma UnreadIsAnswered(w: World, c: CallId, q: Process)
    requires c in w.calls && Serving(w, c, q)
    ensures q.outbox != [] ==> Answered(w, c)
  {
    if q.outbox != [] {
      assert Given(c, w.calls[c].writtenTo.value, q.outbox[0].body).caller == c;
    }
  }

  // Claimed and written, if it was not yet; no other call is touched.
  lemma ComesToRead(w: World, c: CallId, p: Pid)
    requires Inv(w) && c in w.calls && HasProcess(w.calls[c].phase) && w.calls[c].told.None? && !Answered(w, c)
    requires w.calls[c].writtenTo == Some(p)
    ensures var n := Do(Do(w, ClaimRequest(c)), Write(c, Wrote));
            && Starved(n, c, p) && n.kills == w.kills && p in w.processes && n.processes[p].alive == w.processes[p].alive
            && forall d :: d in w.calls && d != c ==> d in n.calls && n.calls[d] == w.calls[d]
  {
    var q := w.processes[p];
    assert CallOk(w.calls[c]) && w.slot == Ready(p);
    if w.calls[c].phase.Reading? {
      UnreadIsAnswered(w, c, q);
    } else {
      assert Quiet(q);
    }
    hide CallOk, CallsOk, Mutex, OneLive, Once, PipesOk, SlotInUse, AnswersOk, KillsOk, Answered;
    hide DoReadLine, DoCheckExited, DoRetireFailed, DoLaunch, DoTimesOut, DoProcess;
  }

  // The stop of the process, for another request.
  lemma IsStopped(w: World, c: CallId, d: CallId, p: Pid)
    requires Starved(w, c, p) && d in w.calls && d != c && w.calls[d].writtenTo == Some(p)
    requires if w.calls[d].told.None? then !w.calls[d].claim.Pending? else p in w.kills || !w.processes[p].alive
    ensures var n := Do(Do(w, TimesOut(d)), Terminate(p)); Starved(n, c, p) && !n.processes[p].alive
  {
    var m := Do(w, TimesOut(d));
    assert Starved(m, c, p) && m.processes == w.processes && (p in m.kills || !m.processes[p].alive);
  }

  lemma FindsTheEnd(w: World, c: CallId, p: Pid)
    requires Starved(w, c, p) && !w.processes[p].alive
    ensures var n := Do(w, ReadLine(c, false));
            c in n.calls && n.calls[c].phase == Failing(Raised(BridgeTransport)) && n.calls[c].told.None?
  {
  }

  function HittingRun(c: CallId, d: CallId, p: Pid): seq<Step> {
    [ClaimRequest(c), Write(c, Wrote), TimesOut(d), Terminate(p), ReadLine(c, false), RetireFailed(c), Deliver(c)]
  }

  // A request of the process that was not settled had its claim won, and its timeout stops the process.
  lemma UnsettledStops(w: World, c: CallId, d: CallId, p: Pid)
    requires Inv(w) && StopsBlamed(w) && c in w.calls && HasProcess(w.calls[c].phase)
    requires d in w.calls && d != c && w.calls[d].writtenTo == Some(p)
    requires w.calls[d].told.None? || w.calls[d].told.value == Raised(BridgeTimeout)
    ensures w.calls[d].told.None? ==> !w.calls[d].claim.Pending?
    ensures w.calls[d].told.Some? ==> p in w.kills || (p in w.processes && !w.processes[p].alive)
  {
    assert CallOk(w.calls[d]);
    hide OneLive, Once, PipesOk, SlotInUse, AnswersOk, TimedOutOn;
  }

  lemma UnsettledHits(w: World, c: CallId, d: CallId, p: Pid)
    requires Inv(w) && StopsBlamed(w) && c in w.calls && HasProcess(w.calls[c].phase) && w.calls[c].told.None?
    requires w.calls[c].writtenTo == Some(p) && !Answered(w, c)
    requires d in w.calls && d != c && w.calls[d].writtenTo == Some(p)
    requires w.calls[d].told.None? || w.calls[d].told.value == Raised(BridgeTimeout)
    ensures HitIn(w, HittingRun(c, d, p), c)
  {
    hide Inv, StopsBlamed, Answered, RunFrom, Do, Starved, HasProcess;
    UnsettledStops(w, c, d, p);
    ComesToRead(w, c, p);
    var w2 := Do(Do(w, ClaimRequest(c)), Write(c, Wrote));
    StarvedIsHit(w2, c, d, p);
    SevenSteps(w, HittingRun(c, d, p));
    assert forall s :: s in HittingRun(c, d, p) ==> Calm(s);
  }

  lemma StarvedIsHit(w: World, c: CallId, d: CallId, p: Pid)
    requires Starved(w, c, p) && d in w.calls && d != c && w.calls[d].writtenTo == Some(p)
    requires if w.calls[d].told.None? then !w.calls[d].claim.Pending? else p in w.kills || !w.processes[p].alive
    ensures var n := Do(Do(Do(Do(Do(w, TimesOut(d)), Terminate(p)), ReadLine(c, false)), RetireFailed(c)), Deliver(c));
            c in n.calls && n.calls[c].told == Some(Raised(BridgeTransport))
  {
    IsStopped(w, c, d, p);
    var stopped := Do(Do(w, TimesOut(d)), Terminate(p));
    FindsTheEnd(stopped, c, p);
    hide Do, Starved;
    FailingIsTold(Do(stopped, ReadLine(c, false)), c);
  }

  lemma GivenStays(w: World, s: Step)
    ensures w.given <= Do(w, s).given
  {
    if !s.Write? && !s.Answers? {
      TrafficKept(w, s);
      hide Do;
    }
    hide DoAcquire, DoLoadClaim, DoCheckExited, DoLaunch, DoLook, DoClaim, DoReadLine, DoRetireFailed, DoPanic, DoDeliver, DoTimesOut;
  }

  lemma {:induction false} AnsweredStays(w: World, steps: seq<Step>, c: CallId)
    requires Answered(w, c)
    ensures Answered(RunFrom(w, steps), c)
    decreases |steps|
  {
    if steps != [] {
      var m := RunFrom(w, steps[..|steps| - 1]);
      AnsweredStays(w, steps[..|steps| - 1], c);
      GivenStays(m, steps[|steps| - 1]);
      hide Do;
      var g :| g in m.given && g.caller == c;
      assert g in RunFrom(w, steps).given;
    }
  }

  lemma AnsweredIsSpared(w: World, c: CallId, after: seq<Step>)
    requires Inv(w) && Unanswered(w) && Blamed(w) && Answered(w, c)
    ensures !HitIn(w, after, c)
  {
    if forall s :: s in after ==> Calm(s) {
      CalmRunIsBlamed(w, after);
      AnsweredStays(w, after, c);
      hide RunFrom, Inv, Unanswered, StopsBlamed, Answered;
      AnsweredIsNotHit(RunFrom(w, after), c);
    }
  }

  lemma AnsweredIsNotHit(w: World, c: CallId)
    requires HitsOk(w) && Answered(w, c)
    ensures c in w.calls ==> !IsHit(w.calls[c])
  {
    hide Answered;
  }

  /** What decides it beforehand, both ways: a request that has its process and is not yet answered can
      still end in `bridge_transport`, with nothing failing by itself, if and only if some other request
      written to that process timed out or was not yet told its result. */
  lemma CanBeHitExactlyWhen(first: Option<Pid>, before: seq<Step>, c: CallId)
    requires forall s :: s in before ==> Calm(s)
    requires var w := RunFrom(Start(first), before);
             c in w.calls && HasProcess(w.calls[c].phase) && w.calls[c].told.None? && w.calls[c].writtenTo.Some?
    ensures var w := RunFrom(Start(first), before);
            (exists after :: HitIn(w, after, c)) <==> !Answered(w, c) && !OthersSettled(w, c, w.calls[c].writtenTo.value)
  {
    CalmRun(first, before);
    var w := RunFrom(Start(first), before);
    var p := w.calls[c].writtenTo.value;
    hide Inv, Unanswered, StopsBlamed, HitsOk;
    if Answered(w, c) {
      forall after ensures !HitIn(w, after, c) {
        AnsweredIsSpared(w, c, after);
      }
    } else if OthersSettled(w, c, p) {
      forall after ensures !HitIn(w, after, c) {
        if forall s :: s in after ==> Calm(s) {
          SettledProcessNeverHits(first, before, after, c);
        }
      }
    } else {
      var d :| d in w.calls && d != c && w.calls[d].writtenTo == Some(p)
               && !(w.calls[d].told.Some? && w.calls[d].told.value != Raised(BridgeTimeout));
      UnsettledHits(w, c, d, p);
      assert HitIn(w, HittingRun(c, d, p), c);
    }
  }
}
