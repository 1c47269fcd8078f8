/** The bridge to the Python process: callers whose timeout races their worker's claim, one locked
    slot, processes that die at any point, and recovery that replaces the process, never a request. */
module Bridge {
  import opened Domain

  type CallId = nat   // one `call_bridge`, and the request it carries
  type Pid = nat

  datatype Claim = Pending | Started | Abandoned

  datatype Code = BackendUnavailable | BridgeTimeout | BridgeTransport | BridgeBusy | Backend(code: nat)

  /** What one request ends in: the bridge's own answer, or a failure this crate raises. */
  datatype Result = Success(value: nat) | Relayed(code: Code) | Raised(code: Code)

  // ---------------------------------------------------------------- one response line

  /** The answer to one request; an error object without code and message has no use. */
  datatype Body = Done(value: nat) | Denied(code: Code) | OddError

  datatype Response = Malformed | Response(id: Option<nat>, body: Body)

  /** `parse_response`. */
  function ParseResponse(line: Response, expected: nat): Result {
    if line.Malformed? || line.id != Some(expected) then Raised(BridgeTransport)
    else
      match line.body
      case Done(value) => Success(value)
      case Denied(code) => Relayed(code)
      case OddError => Raised(BridgeTransport)
  }

  predicate FromAnswer(r: Result) { r.Success? || r.Relayed? }

  function AnswerOf(r: Result): Body {
    match r
    case Success(value) => Done(value)
    case Relayed(code) => Denied(code)
    case Raised(_) => OddError
  }

  /** A failure coded `bridge_transport`, whoever wrote the code, retires the process. */
  predicate BreaksBridge(r: Result) { !r.Success? && r.code == BridgeTransport }

  // ---------------------------------------------------------------- state

  datatype Line = Line(id: nat, caller: CallId)

  datatype Process = Process(alive: bool, terminated: bool, nextId: nat, inbox: seq<Line>, outbox: seq<Response>)

  datatype Slot = Ready(pid: Pid) | Unavailable

  /** Where a call's worker is. From Clearing to Failing it holds the bridge lock. */
  datatype Phase =
    | Waiting | Clearing | Entered | Recovering | Launching | Looking | Claiming | Writing | Reading
    | Failing(failure: Result)
    | Returned(result: Result)
    | Panicked

  datatype Call = Call(phase: Phase, claim: Claim, writtenTo: Option<Pid>, id: nat, told: Option<Result>)

  /** A request line that reached a process's stdin, and an answer a process gave to one. */
  datatype Delivery = Delivery(caller: CallId, pid: Pid, id: nat)
  datatype Given = Given(caller: CallId, pid: Pid, body: Body)

  /** `deliveries` and `given` are history: no step reads them. */
  datatype World = World(
    calls: map<CallId, Call>, holder: Option<CallId>, poisoned: bool, slot: Slot,
    processes: map<Pid, Process>, kills: set<Pid>,
    deliveries: seq<Delivery>, given: seq<Given>)

  datatype WriteOutcome = Wrote | FailedAfterWriting | FailedBeforeWriting

  datatype Step =
    | Arrive(c: CallId)
    | Acquire(c: CallId)
    | RetirePoisoned(c: CallId)
    | LoadClaim(c: CallId)
    | CheckExited(c: CallId, checkFails: bool)
    | Launch(c: CallId, started: Option<Pid>)
    | Look(c: CallId)
    | ClaimRequest(c: CallId)
    | Write(c: CallId, outcome: WriteOutcome)
    | ReadLine(c: CallId, fails: bool)
    | RetireFailed(c: CallId)
    | Panic(c: CallId)
    | Deliver(c: CallId)
    | TimesOut(c: CallId)
    | Terminate(pid: Pid)
    | Dies(pid: Pid)
    | Answers(pid: Pid, body: Body)

  predicate Holds(phase: Phase) {
    !phase.Waiting? && !phase.Returned? && !phase.Panicked?
  }

  function Killed(processes: map<Pid, Process>, pid: Pid): map<Pid, Process> {
    if pid in processes then processes[pid := processes[pid].(alive := false, terminated := true)] else processes
  }

  /** `BridgeSlot::retire`: the current process is killed and the slot left unavailable. */
  function Retire(w: World): World {
    if w.slot.Ready? then w.(slot := Unavailable, processes := Killed(w.processes, w.slot.pid)) else w
  }

  function At(w: World, c: CallId, call: Call): World {
    w.(calls := w.calls[c := call])
  }

  /** The worker returns and gives the lock back. */
  function Return(w: World, c: CallId, result: Result): World
    requires c in w.calls
  {
    At(w, c, w.calls[c].(phase := Returned(result))).(holder := None)
  }

  function DoAcquire(w: World, c: CallId): World
    requires c in w.calls
  {
    if w.calls[c].phase.Waiting? && w.holder.None? then
      At(w, c, w.calls[c].(phase := if w.poisoned then Clearing else Entered)).(holder := Some(c), poisoned := false)
    else w
  }

  function DoLoadClaim(w: World, c: CallId): World
    requires c in w.calls
  {
    var call := w.calls[c];
    if call.phase.Entered? then At(w, c, call.(phase := if call.claim.Pending? then Recovering else Looking)) else w
  }

  /** `recover`, first half: a process that runs stays; one that exited, or cannot be asked, is retired. */
  function DoCheckExited(w: World, c: CallId, checkFails: bool): World
    requires c in w.calls
  {
    var call := w.calls[c];
    if !call.phase.Recovering? then w
    else if w.slot.Ready? && w.slot.pid in w.processes && w.processes[w.slot.pid].alive && !checkFails then
      At(w, c, call.(phase := Looking))
    else At(Retire(w), c, call.(phase := Launching))
  }

  /** `recover`, second half: a new process, to which nothing has been sent, or none. */
  function DoLaunch(w: World, c: CallId, started: Option<Pid>): World
    requires c in w.calls
  {
    var call := w.calls[c];
    if !call.phase.Launching? || (started.Some? && started.value in w.processes) then w
    else
      var n := At(w, c, call.(phase := Looking));
      if started.None? then n
      else n.(slot := Ready(started.value), processes := w.processes[started.value := Process(true, false, 1, [], [])])
  }

  function DoLook(w: World, c: CallId): World
    requires c in w.calls
  {
    var call := w.calls[c];
    if !call.phase.Looking? then w
    else if w.slot.Unavailable? then Return(w, c, Raised(BackendUnavailable))
    else At(w, c, call.(phase := Claiming, writtenTo := Some(w.slot.pid)))
  }

  function DoClaim(w: World, c: CallId): World
    requires c in w.calls
  {
    var call := w.calls[c];
    if !call.phase.Claiming? then w
    else if call.claim.Pending? then At(w, c, call.(phase := Writing, claim := Started))
    else Return(w, c, Raised(BridgeBusy))
  }

  function DoWrite(w: World, c: CallId, outcome: WriteOutcome): World
    requires c in w.calls
  {
    var call := w.calls[c];
    if !call.phase.Writing? || !w.slot.Ready? || w.slot.pid !in w.processes then w
    else
      var p := w.processes[w.slot.pid];
      var n := At(w, c, call.(phase := if outcome.Wrote? then Reading else Failing(Raised(BridgeTransport)), id := p.nextId));
      if outcome.FailedBeforeWriting? then n.(processes := w.processes[w.slot.pid := p.(nextId := p.nextId + 1)])
      else
        n.(processes := w.processes[w.slot.pid := p.(nextId := p.nextId + 1, inbox := p.inbox + [Line(p.nextId, c)])],
           deliveries := w.deliveries + [Delivery(c, w.slot.pid, p.nextId)])
  }

  /** The worker has its result: a broken bridge is still to be retired, under the lock. */
  function Settle(w: World, c: CallId, result: Result): World
    requires c in w.calls
  {
    if BreaksBridge(result) then At(w, c, w.calls[c].(phase := Failing(result))) else Return(w, c, result)
  }

  function DoReadLine(w: World, c: CallId, fails: bool): World
    requires c in w.calls
  {
    var call := w.calls[c];
    if !call.phase.Reading? || !w.slot.Ready? || w.slot.pid !in w.processes then w
    else
      var p := w.processes[w.slot.pid];
      if fails || (p.outbox == [] && !p.alive) then Settle(w, c, Raised(BridgeTransport))
      else if p.outbox == [] then w
      else
        Settle(w.(processes := w.processes[w.slot.pid := p.(outbox := p.outbox[1..])]), c,
               ParseResponse(p.outbox[0], call.id))
  }

  function DoRetireFailed(w: World, c: CallId): World
    requires c in w.calls
  {
    var call := w.calls[c];
    if call.phase.Failing? then Return(Retire(w), c, call.phase.failure) else w
  }

  function DoPanic(w: World, c: CallId): World
    requires c in w.calls
  {
    if Holds(w.calls[c].phase)
    then At(w, c, w.calls[c].(phase := Panicked)).(holder := None, poisoned := true) else w
  }

  function DoDeliver(w: World, c: CallId): World
    requires c in w.calls
  {
    var call := w.calls[c];
    if call.told.Some? then w
    else if call.phase.Returned? then At(w, c, call.(told := Some(call.phase.result)))
    else if call.phase.Panicked? then At(w, c, call.(told := Some(Raised(BridgeTransport))))
    else w
  }

  /** The timeout: it settles a pending claim, or stops the process the request was written to. */
  function DoTimesOut(w: World, c: CallId): World
    requires c in w.calls
  {
    var call := w.calls[c];
    if call.told.Some? then w
    else if call.claim.Pending? then At(w, c, call.(claim := Abandoned, told := Some(Raised(BridgeBusy))))
    else
      At(w, c, call.(told := Some(Raised(BridgeTimeout))))
        .(kills := w.kills + if call.writtenTo.Some? then {call.writtenTo.value} else {})
  }

  /** The peer's side: one response line, with the request's id, for each request line. */
  function DoAnswers(w: World, pid: Pid, body: Body): World
    requires pid in w.processes
  {
    var p := w.processes[pid];
    if !p.alive || p.inbox == [] then w
    else
      w.(processes := w.processes[pid := p.(inbox := p.inbox[1..], outbox := p.outbox + [Response(Some(p.inbox[0].id), body)])],
         given := w.given + [Given(p.inbox[0].caller, pid, body)])
  }

  function DoProcess(w: World, s: Step): World
    requires s.Terminate? || s.Dies? || s.Answers?
  {
    if s.pid !in w.processes then w
    else
      match s
      case Terminate(pid) =>
        if pid in w.kills then w.(processes := Killed(w.processes, pid), kills := w.kills - {pid}) else w
      case Dies(pid) => w.(processes := w.processes[pid := w.processes[pid].(alive := false)])
      case Answers(pid, body) => DoAnswers(w, pid, body)
  }

  function Do(w: World, s: Step): World {
    if s.Terminate? || s.Dies? || s.Answers? then DoProcess(w, s)
    else if s.Arrive? then
      if s.c in w.calls then w else At(w, s.c, Call(Waiting, Pending, None, 0, None))
    else if s.c !in w.calls then w
    else
      match s
      case Acquire(c) => DoAcquire(w, c)
      case RetirePoisoned(c) =>
        if w.calls[c].phase.Clearing? then At(Retire(w), c, w.calls[c].(phase := Entered)) else w
      case LoadClaim(c) => DoLoadClaim(w, c)
      case CheckExited(c, checkFails) => DoCheckExited(w, c, checkFails)
      case Launch(c, started) => DoLaunch(w, c, started)
      case Look(c) => DoLook(w, c)
      case ClaimRequest(c) => DoClaim(w, c)
      case Write(c, outcome) => DoWrite(w, c, outcome)
      case ReadLine(c, fails) => DoReadLine(w, c, fails)
      case RetireFailed(c) => DoRetireFailed(w, c)
      case Panic(c) => DoPanic(w, c)
      case Deliver(c) => DoDeliver(w, c)
      case TimesOut(c) => DoTimesOut(w, c)
  }

  /** The application starts with one launch, which may fail. */
  function Start(first: Option<Pid>): World {
    match first
    case None => World(map[], None, false, Unavailable, map[], {}, [], [])
    case Some(pid) => World(map[], None, false, Ready(pid), map[pid := Process(true, false, 1, [], [])], {}, [], [])
  }

  function RunFrom(w: World, steps: seq<Step>): World
    decreases |steps|
  {
    if steps == [] then w else Do(RunFrom(w, steps[..|steps| - 1]), steps[|steps| - 1])
  }

  // ---------------------------------------------------------------- invariants

  predicate Sent(w: World, c: CallId) { exists d :: d in w.deliveries && d.caller == c }

  predicate BeforeClaim(phase: Phase) {
    || phase.Waiting? || phase.Clearing? || phase.Entered? || phase.Recovering? || phase.Launching? || phase.Looking?
    || phase.Claiming?
  }

  /** Claims, phases and what the caller was told fit together. */
  predicate CallOk(call: Call) {
    && (BeforeClaim(call.phase) ==> !call.claim.Started?)
    && (call.phase.Writing? || call.phase.Reading? || call.phase.Failing? ==> call.claim.Started?)
    && (call.claim.Started? || call.phase.Claiming? ==> call.writtenTo.Some?)
    && (call.claim.Pending? && call.writtenTo.Some? ==> call.phase.Claiming? || call.phase.Panicked?)
    && (call.phase.Failing? ==> call.phase.failure == Raised(BridgeTransport) || call.phase.failure.Relayed?)
    && (call.phase.Returned? ==> ResultFits(call, call.phase.result) && call.phase.result != Raised(BridgeTimeout))
    && (call.told.Some? ==> ResultFits(call, call.told.value))
    && (call.claim.Abandoned? ==> call.told == Some(Raised(BridgeBusy)))
  }

  predicate ResultFits(call: Call, r: Result) {
    match r
    case Raised(BridgeBusy) => call.claim.Abandoned?
    case Raised(BackendUnavailable) => !call.claim.Started? && call.phase == Returned(r)
    case Raised(BridgeTimeout) => call.claim.Started?
    case Raised(BridgeTransport) => true
    case Raised(Backend(_)) => false
    case _ => call.claim.Started?
  }

  predicate Mutex(w: World) {
    && (w.holder.Some? ==> w.holder.value in w.calls && !w.poisoned)
    && (forall c :: c in w.calls ==> (Holds(w.calls[c].phase) <==> w.holder == Some(c)))
  }

  /** The only process that may run is the slot's. */
  predicate OneLive(w: World) {
    && (w.slot.Ready? ==> w.slot.pid in w.processes)
    && (forall p :: p in w.processes && w.processes[p].alive ==> w.slot == Ready(p))
    && (w.holder.Some? && w.holder.value in w.calls && w.calls[w.holder.value].phase.Launching? ==> w.slot.Unavailable?)
    && (forall c :: c in w.calls && w.calls[c].writtenTo.Some? ==> w.calls[c].writtenTo.value in w.processes)
  }

  predicate Once(w: World) {
    && (forall i, j :: 0 <= i < j < |w.deliveries| ==> w.deliveries[i].caller != w.deliveries[j].caller)
    && (forall d :: d in w.deliveries ==> DeliveryOk(w.calls, d))
  }

  predicate DeliveryOk(calls: map<CallId, Call>, d: Delivery) {
    && d.caller in calls && calls[d.caller].claim.Started? && !calls[d.caller].phase.Writing?
    && calls[d.caller].writtenTo == Some(d.pid) && calls[d.caller].id == d.id
  }

  /** Nothing written to the process is unanswered, and no answer is unread. */
  predicate Quiet(p: Process) { p.inbox == [] && p.outbox == [] }

  /** The process has exactly the holder's request, not answered yet or with its answer unread. */
  predicate Serving(w: World, c: CallId, p: Process)
    requires c in w.calls
  {
    var call := w.calls[c];
    && call.writtenTo.Some?
    && Delivery(c, call.writtenTo.value, call.id) in w.deliveries
    && ((p.inbox == [Line(call.id, c)] && p.outbox == [])
        || (p.inbox == [] && |p.outbox| == 1 && p.outbox[0].Response? && p.outbox[0].id == Some(call.id)
            && Given(c, call.writtenTo.value, p.outbox[0].body) in w.given))
  }

  /** What the slot's process may have pending, by what the lock's holder is doing. */
  predicate PipesOk(w: World) {
    w.slot.Ready? && w.slot.pid in w.processes ==>
      var p := w.processes[w.slot.pid];
      if w.holder.None? then w.poisoned || Quiet(p)
      else if w.holder.value !in w.calls then false
      else
        var call := w.calls[w.holder.value];
        match call.phase
        case Clearing => true
        case Failing(_) => true
        case Claiming => Quiet(p) && call.writtenTo == Some(w.slot.pid)
        case Writing => Quiet(p) && call.writtenTo == Some(w.slot.pid)
        case Reading => Serving(w, w.holder.value, p) && call.writtenTo == Some(w.slot.pid)
        case _ => Quiet(p)
  }

  /** While its worker uses the bridge, the slot is the process the request belongs to. */
  predicate SlotInUse(w: World) {
    forall c :: c in w.calls && (w.calls[c].phase.Claiming? || w.calls[c].phase.Writing? || w.calls[c].phase.Reading?) ==>
      w.slot.Ready? && w.calls[c].writtenTo == Some(w.slot.pid)
  }

  /** An answered caller has the body its own process gave to its own delivered request. */
  predicate Earned(deliveries: seq<Delivery>, given: seq<Given>, c: CallId, to: Option<Pid>, id: nat, r: Result) {
    FromAnswer(r) ==> to.Some? && Delivery(c, to.value, id) in deliveries && Given(c, to.value, AnswerOf(r)) in given
  }

  predicate AnswerOk(w: World, c: CallId, r: Result)
    requires c in w.calls
  {
    Earned(w.deliveries, w.given, c, w.calls[c].writtenTo, w.calls[c].id, r)
  }

  predicate AnswersOk(w: World) {
    forall c :: c in w.calls ==>
      && (w.calls[c].phase.Returned? ==> AnswerOk(w, c, w.calls[c].phase.result))
      && (w.calls[c].phase.Failing? ==> AnswerOk(w, c, w.calls[c].phase.failure))
      && (w.calls[c].told.Some? ==> AnswerOk(w, c, w.calls[c].told.value))
  }

  /** A request that timed out after its claim has its process stopped, or about to be. */
  predicate KillsOk(w: World) {
    forall c :: c in w.calls && w.calls[c].told == Some(Raised(BridgeTimeout)) ==>
      && w.calls[c].writtenTo.Some? && w.calls[c].writtenTo.value in w.processes
      && (w.calls[c].writtenTo.value in w.kills || !w.processes[w.calls[c].writtenTo.value].alive)
  }

  predicate CallsOk(w: World) { forall c :: c in w.calls ==> CallOk(w.calls[c]) }

  predicate Inv(w: World) {
    CallsOk(w) && Mutex(w) && OneLive(w) && Once(w) && PipesOk(w) && SlotInUse(w) && AnswersOk(w) && KillsOk(w)
  }

  lemma AcquireKeepsCalls(w: World, c: CallId)
    requires Inv(w) && c in w.calls
    ensures CallsOk(DoAcquire(w, c)) && Mutex(DoAcquire(w, c))
  {
    hide PipesOk, KillsOk, Once, OneLive, AnswersOk, SlotInUse;
  }

  lemma AcquireKeepsSlot(w: World, c: CallId)
    requires Inv(w) && c in w.calls
    ensures OneLive(DoAcquire(w, c)) && SlotInUse(DoAcquire(w, c))
  {
    hide PipesOk, AnswersOk, KillsOk, Once, CallsOk;
  }

  lemma AcquireKeepsPipes(w: World, c: CallId)
    requires Inv(w) && c in w.calls
    ensures Once(DoAcquire(w, c)) && PipesOk(DoAcquire(w, c))
  {
    hide AnswersOk, KillsOk;
  }

  lemma AcquireKeepsAnswers(w: World, c: CallId)
    requires Inv(w) && c in w.calls
    ensures AnswersOk(DoAcquire(w, c)) && KillsOk(DoAcquire(w, c))
  {
    hide Once, OneLive, PipesOk;
  }

  lemma AcquireKeeps(w: World, c: CallId)
    requires Inv(w) && c in w.calls
    ensures Inv(DoAcquire(w, c))
  {
    AcquireKeepsCalls(w, c);
    AcquireKeepsSlot(w, c);
    AcquireKeepsPipes(w, c);
    AcquireKeepsAnswers(w, c);
    hide DoAcquire, CallsOk, Mutex, OneLive, Once, PipesOk, SlotInUse, AnswersOk, KillsOk;
  }

  lemma RetirePoisonedKeepsCalls(w: World, c: CallId)
    requires Inv(w) && c in w.calls && w.calls[c].phase.Clearing?
    ensures CallsOk(At(Retire(w), c, w.calls[c].(phase := Entered))) && Mutex(At(Retire(w), c, w.calls[c].(phase := Entered)))
  {
    hide PipesOk, KillsOk, Once, OneLive, AnswersOk, SlotInUse;
  }

  lemma RetirePoisonedKeepsSlot(w: World, c: CallId)
    requires Inv(w) && c in w.calls && w.calls[c].phase.Clearing?
    ensures OneLive(At(Retire(w), c, w.calls[c].(phase := Entered))) && SlotInUse(At(Retire(w), c, w.calls[c].(phase := Entered)))
  {
    hide PipesOk, AnswersOk, KillsOk, Once, CallsOk;
  }

  lemma RetirePoisonedKeepsPipes(w: World, c: CallId)
    requires Inv(w) && c in w.calls && w.calls[c].phase.Clearing?
    ensures Once(At(Retire(w), c, w.calls[c].(phase := Entered))) && PipesOk(At(Retire(w), c, w.calls[c].(phase := Entered)))
  {
    hide AnswersOk, KillsOk;
  }

  lemma RetirePoisonedKeepsAnswers(w: World, c: CallId)
    requires Inv(w) && c in w.calls && w.calls[c].phase.Clearing?
    ensures AnswersOk(At(Retire(w), c, w.calls[c].(phase := Entered))) && KillsOk(At(Retire(w), c, w.calls[c].(phase := Entered)))
  {
    hide Once, PipesOk;
  }

  lemma RetirePoisonedKeeps(w: World, c: CallId)
    requires Inv(w) && c in w.calls && w.calls[c].phase.Clearing?
    ensures Inv(At(Retire(w), c, w.calls[c].(phase := Entered)))
  {
    RetirePoisonedKeepsCalls(w, c);
    RetirePoisonedKeepsSlot(w, c);
    RetirePoisonedKeepsPipes(w, c);
    RetirePoisonedKeepsAnswers(w, c);
    hide At, Retire, CallsOk, Mutex, OneLive, Once, PipesOk, SlotInUse, AnswersOk, KillsOk;
  }

  lemma LoadClaimKeepsCalls(w: World, c: CallId)
    requires Inv(w) && c in w.calls
    ensures CallsOk(DoLoadClaim(w, c)) && Mutex(DoLoadClaim(w, c))
  {
    hide PipesOk, KillsOk, Once, OneLive, AnswersOk, SlotInUse;
  }

  lemma LoadClaimKeepsSlot(w: World, c: CallId)
    requires Inv(w) && c in w.calls
    ensures OneLive(DoLoadClaim(w, c)) && SlotInUse(DoLoadClaim(w, c))
  {
    hide PipesOk, AnswersOk, KillsOk, Once, CallsOk;
  }

  lemma LoadClaimKeepsPipes(w: World, c: CallId)
    requires Inv(w) && c in w.calls
    ensures Once(DoLoadClaim(w, c)) && PipesOk(DoLoadClaim(w, c))
  {
    hide AnswersOk, KillsOk;
  }

  lemma LoadClaimKeepsAnswers(w: World, c: CallId)
    requires Inv(w) && c in w.calls
    ensures AnswersOk(DoLoadClaim(w, c)) && KillsOk(DoLoadClaim(w, c))
  {
    hide Once, OneLive, PipesOk;
  }

  lemma LoadClaimKeeps(w: World, c: CallId)
    requires Inv(w) && c in w.calls
    ensures Inv(DoLoadClaim(w, c))
  {
    LoadClaimKeepsCalls(w, c);
    LoadClaimKeepsSlot(w, c);
    LoadClaimKeepsPipes(w, c);
    LoadClaimKeepsAnswers(w, c);
    hide DoLoadClaim, CallsOk, Mutex, OneLive, Once, PipesOk, SlotInUse, AnswersOk, KillsOk;
  }

  lemma LaunchKeepsCalls(w: World, c: CallId, started: Option<Pid>)
    requires Inv(w) && c in w.calls
    ensures CallsOk(DoLaunch(w, c, started)) && Mutex(DoLaunch(w, c, started))
  {
    hide PipesOk, KillsOk, Once, OneLive, AnswersOk, SlotInUse;
  }

  lemma LaunchKeepsSlot(w: World, c: CallId, started: Option<Pid>)
    requires Inv(w) && c in w.calls
    ensures OneLive(DoLaunch(w, c, started)) && SlotInUse(DoLaunch(w, c, started))
  {
    hide PipesOk, AnswersOk, KillsOk, Once, CallsOk;
  }

  lemma LaunchKeepsPipes(w: World, c: CallId, started: Option<Pid>)
    requires Inv(w) && c in w.calls
    ensures Once(DoLaunch(w, c, started)) && PipesOk(DoLaunch(w, c, started))
  {
    hide AnswersOk, KillsOk;
  }

  lemma LaunchKeepsAnswers(w: World, c: CallId, started: Option<Pid>)
    requires Inv(w) && c in w.calls
    ensures AnswersOk(DoLaunch(w, c, started)) && KillsOk(DoLaunch(w, c, started))
  {
    hide Once, PipesOk;
  }

  lemma LaunchKeeps(w: World, c: CallId, started: Option<Pid>)
    requires Inv(w) && c in w.calls
    ensures Inv(DoLaunch(w, c, started))
  {
    LaunchKeepsCalls(w, c, started);
    LaunchKeepsSlot(w, c, started);
    LaunchKeepsPipes(w, c, started);
    LaunchKeepsAnswers(w, c, started);
    hide DoLaunch, CallsOk, Mutex, OneLive, Once, PipesOk, SlotInUse, AnswersOk, KillsOk;
  }

  lemma PanicKeepsCalls(w: World, c: CallId)
    requires Inv(w) && c in w.calls
    ensures CallsOk(DoPanic(w, c)) && Mutex(DoPanic(w, c))
  {
    hide PipesOk, KillsOk, Once, OneLive, AnswersOk, SlotInUse;
  }

  lemma PanicKeepsSlot(w: World, c: CallId)
    requires Inv(w) && c in w.calls
    ensures OneLive(DoPanic(w, c)) && SlotInUse(DoPanic(w, c))
  {
    hide PipesOk, AnswersOk, KillsOk, Once, CallsOk;
  }

  lemma PanicKeepsPipes(w: World, c: CallId)
    requires Inv(w) && c in w.calls
    ensures Once(DoPanic(w, c)) && PipesOk(DoPanic(w, c))
  {
    hide AnswersOk, KillsOk;
  }

  lemma PanicKeepsAnswers(w: World, c: CallId)
    requires Inv(w) && c in w.calls
    ensures AnswersOk(DoPanic(w, c)) && KillsOk(DoPanic(w, c))
  {
    hide Once, OneLive, PipesOk;
  }

  lemma PanicKeeps(w: World, c: CallId)
    requires Inv(w) && c in w.calls
    ensures Inv(DoPanic(w, c))
  {
    PanicKeepsCalls(w, c);
    PanicKeepsSlot(w, c);
    PanicKeepsPipes(w, c);
    PanicKeepsAnswers(w, c);
    hide DoPanic, CallsOk, Mutex, OneLive, Once, PipesOk, SlotInUse, AnswersOk, KillsOk;
  }

  lemma ProcessKeepsCalls(w: World, s: Step)
    requires Inv(w) && (s.Terminate? || s.Dies? || s.Answers?)
    ensures CallsOk(DoProcess(w, s)) && Mutex(DoProcess(w, s))
  {
    hide PipesOk, KillsOk, Once, OneLive, AnswersOk, SlotInUse;
  }

  lemma ProcessKeepsSlot(w: World, s: Step)
    requires Inv(w) && (s.Terminate? || s.Dies? || s.Answers?)
    ensures OneLive(DoProcess(w, s)) && SlotInUse(DoProcess(w, s))
  {
    hide PipesOk, AnswersOk, KillsOk, Once, CallsOk;
  }

  lemma ProcessKeepsPipes(w: World, s: Step)
    requires Inv(w) && (s.Terminate? || s.Dies? || s.Answers?)
    ensures Once(DoProcess(w, s)) && PipesOk(DoProcess(w, s))
  {
    hide AnswersOk, KillsOk;
  }

  lemma ProcessKeepsAnswers(w: World, s: Step)
    requires Inv(w) && (s.Terminate? || s.Dies? || s.Answers?)
    ensures AnswersOk(DoProcess(w, s)) && KillsOk(DoProcess(w, s))
  {
    hide Once;
  }

  lemma ProcessKeeps(w: World, s: Step)
    requires Inv(w) && (s.Terminate? || s.Dies? || s.Answers?)
    ensures Inv(DoProcess(w, s))
  {
    ProcessKeepsCalls(w, s);
    ProcessKeepsSlot(w, s);
    ProcessKeepsPipes(w, s);
    ProcessKeepsAnswers(w, s);
    hide DoProcess, CallsOk, Mutex, OneLive, Once, PipesOk, SlotInUse, AnswersOk, KillsOk;
  }

  lemma ClaimKeepsControl(w: World, c: CallId)
    requires Inv(w) && c in w.calls
    ensures CallsOk(DoClaim(w, c)) && Mutex(DoClaim(w, c))
    ensures OneLive(DoClaim(w, c)) && SlotInUse(DoClaim(w, c))
  {
    hide PipesOk, AnswersOk, KillsOk, Once;
  }

  lemma ClaimKeepsTraffic(w: World, c: CallId)
    requires Inv(w) && c in w.calls
    ensures Once(DoClaim(w, c)) && PipesOk(DoClaim(w, c))
    ensures AnswersOk(DoClaim(w, c)) && KillsOk(DoClaim(w, c))
  {
    ClaimKeepsAnswers(w, c);
    hide AnswersOk, KillsOk, OneLive;
  }

  lemma ClaimKeepsAnswers(w: World, c: CallId)
    requires Inv(w) && c in w.calls
    ensures AnswersOk(DoClaim(w, c)) && KillsOk(DoClaim(w, c))
  {
    hide Once, PipesOk, OneLive, Mutex, SlotInUse;
  }

  lemma WriteKeepsCalls(w: World, c: CallId, outcome: WriteOutcome)
    requires Inv(w) && c in w.calls
    ensures CallsOk(DoWrite(w, c, outcome)) && Mutex(DoWrite(w, c, outcome))
  {
    hide PipesOk, AnswersOk, KillsOk, Once, OneLive, SlotInUse;
  }

  lemma WriteKeepsControl(w: World, c: CallId, outcome: WriteOutcome)
    requires Inv(w) && c in w.calls
    ensures CallsOk(DoWrite(w, c, outcome)) && Mutex(DoWrite(w, c, outcome))
    ensures OneLive(DoWrite(w, c, outcome)) && SlotInUse(DoWrite(w, c, outcome))
  {
    WriteKeepsCalls(w, c, outcome);
    hide PipesOk, AnswersOk, KillsOk, Once, CallsOk;
  }

  lemma WriteKeepsOnce(w: World, c: CallId, outcome: WriteOutcome)
    requires Inv(w) && c in w.calls
    ensures Once(DoWrite(w, c, outcome))
  {
    var n := DoWrite(w, c, outcome);
    hide Mutex, OneLive, PipesOk, AnswersOk, KillsOk;
    forall i, j | 0 <= i < j < |n.deliveries| ensures n.deliveries[i].caller != n.deliveries[j].caller {
      if j == |w.deliveries| {
        assert w.deliveries[i] in w.deliveries;
      }
    }
  }

  lemma WriteKeepsTraffic(w: World, c: CallId, outcome: WriteOutcome)
    requires Inv(w) && c in w.calls
    ensures Once(DoWrite(w, c, outcome)) && PipesOk(DoWrite(w, c, outcome))
    ensures AnswersOk(DoWrite(w, c, outcome)) && KillsOk(DoWrite(w, c, outcome))
  {
    WriteKeepsOnce(w, c, outcome);
    WriteKeepsAnswers(w, c, outcome);
    hide Once, AnswersOk, KillsOk, OneLive, CallsOk;
  }

  lemma WriteKeepsAnswers(w: World, c: CallId, outcome: WriteOutcome)
    requires Inv(w) && c in w.calls
    ensures AnswersOk(DoWrite(w, c, outcome)) && KillsOk(DoWrite(w, c, outcome))
  {
    hide Mutex, OneLive, PipesOk, SlotInUse;
  }

  lemma ReadLineKeepsCalls(w: World, c: CallId, fails: bool)
    requires Inv(w) && c in w.calls
    ensures CallsOk(DoReadLine(w, c, fails)) && Mutex(DoReadLine(w, c, fails))
  {
    hide PipesOk, KillsOk, Once, OneLive, AnswersOk, Mutex, SlotInUse, CallOk, Settle;
    ReadLineKeepsMutex(w, c, fails);
    var n := DoReadLine(w, c, fails);
    if n != w {
      assert CallOk(w.calls[c]);
      var p := w.processes[w.slot.pid];
      SettleOk(w, c, Raised(BridgeTransport));
      if p.outbox != [] {
        SettleOk(w.(processes := w.processes[w.slot.pid := p.(outbox := p.outbox[1..])]), c,
                 ParseResponse(p.outbox[0], w.calls[c].id));
      }
    }
  }

  lemma SettleOk(w: World, c: CallId, r: Result)
    requires CallsOk(w) && c in w.calls && w.calls[c].phase.Reading? && (r == Raised(BridgeTransport) || FromAnswer(r))
    ensures CallsOk(Settle(w, c, r))
  {
    assert CallOk(w.calls[c]);
  }

  lemma ReadLineKeepsMutex(w: World, c: CallId, fails: bool)
    requires Mutex(w) && c in w.calls
    ensures Mutex(DoReadLine(w, c, fails))
  {
    hide ParseResponse;
  }

  lemma ReadLineKeepsSlot(w: World, c: CallId, fails: bool)
    requires Inv(w) && c in w.calls
    ensures OneLive(DoReadLine(w, c, fails)) && SlotInUse(DoReadLine(w, c, fails))
  {
    hide PipesOk, AnswersOk, KillsOk, Once, CallsOk;
  }

  lemma ReadLineKeepsOnce(w: World, c: CallId, fails: bool)
    requires Inv(w) && c in w.calls
    ensures Once(DoReadLine(w, c, fails))
  {
    hide CallsOk, Mutex, OneLive, PipesOk, SlotInUse, AnswersOk, KillsOk, ParseResponse;
  }

  lemma ReadLineKeepsPipes(w: World, c: CallId, fails: bool)
    requires Inv(w) && c in w.calls
    ensures Once(DoReadLine(w, c, fails)) && PipesOk(DoReadLine(w, c, fails))
  {
    ReadLineKeepsOnce(w, c, fails);
    hide Once, OneLive, AnswersOk, KillsOk, ParseResponse;
  }

  /** The line a worker reads is the answer to its own request: an id never fails to match. */
  lemma OwnAnswer(w: World, c: CallId)
    requires Inv(w) && c in w.calls && w.calls[c].phase.Reading? && w.slot.Ready? && w.slot.pid in w.processes
    ensures var p := w.processes[w.slot.pid];
            p.outbox != [] ==>
              && |p.outbox| == 1 && p.outbox[0].Response? && p.outbox[0].id == Some(w.calls[c].id)
              && AnswerOk(w, c, ParseResponse(p.outbox[0], w.calls[c].id))
  {
    hide CallsOk, OneLive, Once, SlotInUse, AnswersOk, KillsOk;
  }

  lemma ReadLineKeepsAnswers(w: World, c: CallId, fails: bool)
    requires Inv(w) && c in w.calls
    ensures AnswersOk(DoReadLine(w, c, fails))
  {
    hide CallsOk, Mutex, OneLive, Once, PipesOk, SlotInUse, KillsOk, ParseResponse, Earned;
    if w.calls[c].phase.Reading? && w.slot.Ready? && w.slot.pid in w.processes {
      OwnAnswer(w, c);
    }
    RaisedIsEarned(w.deliveries, w.given);
  }

  lemma RaisedIsEarned(deliveries: seq<Delivery>, given: seq<Given>)
    ensures forall c, to, id: nat, r: Result :: r.Raised? ==> Earned(deliveries, given, c, to, id, r)
  {
  }

  lemma KillsStay(w: World, n: World)
    requires KillsOk(w) && n.kills == w.kills && n.calls.Keys == w.calls.Keys
    requires forall c :: c in w.calls ==> n.calls[c].told == w.calls[c].told && n.calls[c].writtenTo == w.calls[c].writtenTo
    requires forall p :: p in w.processes ==> p in n.processes && (n.processes[p].alive ==> w.processes[p].alive)
    ensures KillsOk(n)
  {
  }

  lemma ReadLineKeepsKills(w: World, c: CallId, fails: bool)
    requires Inv(w) && c in w.calls
    ensures KillsOk(DoReadLine(w, c, fails))
  {
    hide CallsOk, Mutex, OneLive, Once, PipesOk, SlotInUse, AnswersOk, KillsOk, ParseResponse;
    KillsStay(w, DoReadLine(w, c, fails));
  }

  lemma TimesOutKeepsCalls(w: World, c: CallId)
    requires Inv(w) && c in w.calls
    ensures CallsOk(DoTimesOut(w, c)) && Mutex(DoTimesOut(w, c))
  {
    hide PipesOk, KillsOk, Once, OneLive, AnswersOk;
  }

  lemma TimesOutKeepsSlot(w: World, c: CallId)
    requires Inv(w) && c in w.calls
    ensures OneLive(DoTimesOut(w, c)) && SlotInUse(DoTimesOut(w, c))
  {
    hide PipesOk, AnswersOk, KillsOk, Once, CallsOk, Mutex, OneLive, SlotInUse;
    SlotStays(w, DoTimesOut(w, c));
  }

  lemma SlotStays(w: World, n: World)
    requires OneLive(w) && SlotInUse(w)
    requires n.processes == w.processes && n.slot == w.slot && n.holder == w.holder
    requires n.calls.Keys == w.calls.Keys
    requires forall c :: c in w.calls ==> n.calls[c].phase == w.calls[c].phase && n.calls[c].writtenTo == w.calls[c].writtenTo
    ensures OneLive(n) && SlotInUse(n)
  {
  }

  lemma TimesOutKeepsOnce(w: World, c: CallId)
    requires Inv(w) && c in w.calls
    ensures Once(DoTimesOut(w, c))
  {
    hide CallsOk, Mutex, OneLive, PipesOk, SlotInUse, AnswersOk, KillsOk, ParseResponse;
  }

  lemma TimesOutKeepsPipes(w: World, c: CallId)
    requires Inv(w) && c in w.calls
    ensures Once(DoTimesOut(w, c)) && PipesOk(DoTimesOut(w, c))
  {
    TimesOutKeepsOnce(w, c);
    hide Once, OneLive, AnswersOk, KillsOk, ParseResponse;
  }

  lemma TimesOutKeepsKills(w: World, c: CallId)
    requires Inv(w) && c in w.calls
    ensures KillsOk(DoTimesOut(w, c))
  {
    hide Once, PipesOk, SlotInUse, Mutex, AnswersOk;
  }

  lemma TimesOutKeepsAnswers(w: World, c: CallId)
    requires Inv(w) && c in w.calls
    ensures AnswersOk(DoTimesOut(w, c))
  {
    hide Once, PipesOk, SlotInUse, Mutex, OneLive, CallsOk, KillsOk, Earned;
    RaisedIsEarned(w.deliveries, w.given);
  }

  lemma ClaimKeeps(w: World, c: CallId)
    requires Inv(w) && c in w.calls
    ensures Inv(DoClaim(w, c))
  {
    ClaimKeepsControl(w, c);
    ClaimKeepsTraffic(w, c);
    hide DoClaim, CallsOk, Mutex, OneLive, Once, PipesOk, SlotInUse, AnswersOk, KillsOk;
  }

  lemma WriteKeeps(w: World, c: CallId, outcome: WriteOutcome)
    requires Inv(w) && c in w.calls
    ensures Inv(DoWrite(w, c, outcome))
  {
    WriteKeepsControl(w, c, outcome);
    WriteKeepsTraffic(w, c, outcome);
    hide DoWrite, CallsOk, Mutex, OneLive, Once, PipesOk, SlotInUse, AnswersOk, KillsOk;
  }

  lemma ReadLineKeeps(w: World, c: CallId, fails: bool)
    requires Inv(w) && c in w.calls
    ensures Inv(DoReadLine(w, c, fails))
  {
    ReadLineKeepsCalls(w, c, fails);
    ReadLineKeepsSlot(w, c, fails);
    ReadLineKeepsPipes(w, c, fails);
    ReadLineKeepsAnswers(w, c, fails);
    ReadLineKeepsKills(w, c, fails);
    hide DoReadLine, CallsOk, Mutex, OneLive, Once, PipesOk, SlotInUse, AnswersOk, KillsOk;
  }

  lemma TimesOutKeeps(w: World, c: CallId)
    requires Inv(w) && c in w.calls
    ensures Inv(DoTimesOut(w, c))
  {
    TimesOutKeepsCalls(w, c);
    TimesOutKeepsSlot(w, c);
    TimesOutKeepsPipes(w, c);
    TimesOutKeepsAnswers(w, c);
    TimesOutKeepsKills(w, c);
    hide DoTimesOut, CallsOk, Mutex, OneLive, Once, PipesOk, SlotInUse, AnswersOk, KillsOk;
  }

  lemma DeliverKeepsCalls(w: World, c: CallId)
    requires Inv(w) && c in w.calls
    ensures CallsOk(DoDeliver(w, c)) && Mutex(DoDeliver(w, c))
  {
    hide PipesOk, KillsOk, Once, OneLive, AnswersOk, SlotInUse;
  }

  lemma DeliverKeepsSlot(w: World, c: CallId)
    requires Inv(w) && c in w.calls
    ensures OneLive(DoDeliver(w, c)) && SlotInUse(DoDeliver(w, c))
  {
    hide PipesOk, AnswersOk, KillsOk, Once, CallsOk;
  }

  lemma DeliverKeepsOnce(w: World, c: CallId)
    requires Inv(w) && c in w.calls
    ensures Once(DoDeliver(w, c))
  {
    hide CallsOk, Mutex, OneLive, PipesOk, SlotInUse, AnswersOk, KillsOk, ParseResponse;
  }

  lemma DeliverKeepsPipes(w: World, c: CallId)
    requires Inv(w) && c in w.calls
    ensures Once(DoDeliver(w, c)) && PipesOk(DoDeliver(w, c))
  {
    DeliverKeepsOnce(w, c);
    hide Once, OneLive, AnswersOk, KillsOk, ParseResponse;
  }

  lemma DeliverKeepsAnswers(w: World, c: CallId)
    requires Inv(w) && c in w.calls
    ensures AnswersOk(DoDeliver(w, c)) && KillsOk(DoDeliver(w, c))
  {
    hide Once, OneLive, PipesOk;
  }

  lemma DeliverKeeps(w: World, c: CallId)
    requires Inv(w) && c in w.calls
    ensures Inv(DoDeliver(w, c))
  {
    DeliverKeepsCalls(w, c);
    DeliverKeepsSlot(w, c);
    DeliverKeepsPipes(w, c);
    DeliverKeepsAnswers(w, c);
    hide DoDeliver, CallsOk, Mutex, OneLive, Once, PipesOk, SlotInUse, AnswersOk, KillsOk;
  }

  lemma LookKeepsCalls(w: World, c: CallId)
    requires Inv(w) && c in w.calls
    ensures CallsOk(DoLook(w, c)) && Mutex(DoLook(w, c))
  {
    hide PipesOk, KillsOk, Once, OneLive, AnswersOk, SlotInUse;
  }

  lemma LookKeepsSlot(w: World, c: CallId)
    requires Inv(w) && c in w.calls
    ensures OneLive(DoLook(w, c)) && SlotInUse(DoLook(w, c))
  {
    hide PipesOk, AnswersOk, KillsOk, Once, CallsOk;
  }

  lemma LookKeepsPipes(w: World, c: CallId)
    requires Inv(w) && c in w.calls
    ensures Once(DoLook(w, c)) && PipesOk(DoLook(w, c))
  {
    hide AnswersOk, KillsOk;
  }

  lemma LookKeepsAnswers(w: World, c: CallId)
    requires Inv(w) && c in w.calls
    ensures AnswersOk(DoLook(w, c)) && KillsOk(DoLook(w, c))
  {
    hide Once, OneLive, PipesOk;
  }

  lemma LookKeeps(w: World, c: CallId)
    requires Inv(w) && c in w.calls
    ensures Inv(DoLook(w, c))
  {
    LookKeepsCalls(w, c);
    LookKeepsSlot(w, c);
    LookKeepsPipes(w, c);
    LookKeepsAnswers(w, c);
    hide DoLook, CallsOk, Mutex, OneLive, Once, PipesOk, SlotInUse, AnswersOk, KillsOk;
  }

  lemma RetireFailedKeepsCalls(w: World, c: CallId)
    requires Inv(w) && c in w.calls
    ensures CallsOk(DoRetireFailed(w, c)) && Mutex(DoRetireFailed(w, c))
  {
    hide PipesOk, KillsOk, Once, OneLive, AnswersOk, SlotInUse;
  }

  lemma RetireFailedKeepsSlot(w: World, c: CallId)
    requires Inv(w) && c in w.calls
    ensures OneLive(DoRetireFailed(w, c)) && SlotInUse(DoRetireFailed(w, c))
  {
    hide PipesOk, AnswersOk, KillsOk, Once, CallsOk;
  }

  lemma RetireFailedKeepsPipes(w: World, c: CallId)
    requires Inv(w) && c in w.calls
    ensures Once(DoRetireFailed(w, c)) && PipesOk(DoRetireFailed(w, c))
  {
    hide AnswersOk, KillsOk;
  }

  lemma RetireFailedKeepsAnswers(w: World, c: CallId)
    requires Inv(w) && c in w.calls
    ensures AnswersOk(DoRetireFailed(w, c)) && KillsOk(DoRetireFailed(w, c))
  {
    hide Once, OneLive, PipesOk;
  }

  lemma RetireFailedKeeps(w: World, c: CallId)
    requires Inv(w) && c in w.calls
    ensures Inv(DoRetireFailed(w, c))
  {
    RetireFailedKeepsCalls(w, c);
    RetireFailedKeepsSlot(w, c);
    RetireFailedKeepsPipes(w, c);
    RetireFailedKeepsAnswers(w, c);
    hide DoRetireFailed, CallsOk, Mutex, OneLive, Once, PipesOk, SlotInUse, AnswersOk, KillsOk;
  }

  lemma CheckExitedKeepsCalls(w: World, c: CallId, checkFails: bool)
    requires Inv(w) && c in w.calls
    ensures CallsOk(DoCheckExited(w, c, checkFails)) && Mutex(DoCheckExited(w, c, checkFails))
  {
    hide PipesOk, KillsOk, Once, OneLive, AnswersOk, SlotInUse;
  }

  lemma CheckExitedKeepsSlot(w: World, c: CallId, checkFails: bool)
    requires Inv(w) && c in w.calls
    ensures OneLive(DoCheckExited(w, c, checkFails)) && SlotInUse(DoCheckExited(w, c, checkFails))
  {
    hide PipesOk, AnswersOk, KillsOk, Once, CallsOk;
  }

  lemma CheckExitedKeepsPipes(w: World, c: CallId, checkFails: bool)
    requires Inv(w) && c in w.calls
    ensures Once(DoCheckExited(w, c, checkFails)) && PipesOk(DoCheckExited(w, c, checkFails))
  {
    hide AnswersOk, KillsOk;
  }

  lemma CheckExitedKeepsKills(w: World, c: CallId, checkFails: bool)
    requires Inv(w) && c in w.calls
    ensures KillsOk(DoCheckExited(w, c, checkFails))
  {
    hide Once, PipesOk, AnswersOk, CallsOk, Mutex, SlotInUse, KillsOk, OneLive, Killed;
    KilledStopsOne(w.processes, w.slot);
    KillsStay(w, DoCheckExited(w, c, checkFails));
  }

  lemma CheckExitedKeepsAnswers(w: World, c: CallId, checkFails: bool)
    requires Inv(w) && c in w.calls
    ensures AnswersOk(DoCheckExited(w, c, checkFails)) && KillsOk(DoCheckExited(w, c, checkFails))
  {
    CheckExitedKeepsKills(w, c, checkFails);
    hide Once, PipesOk, KillsOk, CallsOk, Mutex, SlotInUse, OneLive, Killed;
  }

  lemma CheckExitedKeeps(w: World, c: CallId, checkFails: bool)
    requires Inv(w) && c in w.calls
    ensures Inv(DoCheckExited(w, c, checkFails))
  {
    CheckExitedKeepsCalls(w, c, checkFails);
    CheckExitedKeepsSlot(w, c, checkFails);
    CheckExitedKeepsPipes(w, c, checkFails);
    CheckExitedKeepsAnswers(w, c, checkFails);
    hide DoCheckExited, CallsOk, Mutex, OneLive, Once, PipesOk, SlotInUse, AnswersOk, KillsOk;
  }

  lemma ArriveKeepsCalls(w: World, c: CallId)
    requires Inv(w) && c !in w.calls
    ensures CallsOk(At(w, c, Call(Waiting, Pending, None, 0, None))) && Mutex(At(w, c, Call(Waiting, Pending, None, 0, None)))
  {
    hide PipesOk, KillsOk, Once, OneLive, AnswersOk, SlotInUse;
  }

  lemma ArriveKeepsSlot(w: World, c: CallId)
    requires Inv(w) && c !in w.calls
    ensures OneLive(At(w, c, Call(Waiting, Pending, None, 0, None))) && SlotInUse(At(w, c, Call(Waiting, Pending, None, 0, None)))
  {
    hide PipesOk, AnswersOk, KillsOk, Once, CallsOk;
  }

  lemma ArriveKeepsPipes(w: World, c: CallId)
    requires Inv(w) && c !in w.calls
    ensures Once(At(w, c, Call(Waiting, Pending, None, 0, None))) && PipesOk(At(w, c, Call(Waiting, Pending, None, 0, None)))
  {
    hide AnswersOk, KillsOk;
  }

  lemma ArriveKeepsAnswers(w: World, c: CallId)
    requires Inv(w) && c !in w.calls
    ensures AnswersOk(At(w, c, Call(Waiting, Pending, None, 0, None))) && KillsOk(At(w, c, Call(Waiting, Pending, None, 0, None)))
  {
    hide Once, OneLive, PipesOk;
  }

  lemma ArriveKeeps(w: World, c: CallId)
    requires Inv(w) && c !in w.calls
    ensures Inv(At(w, c, Call(Waiting, Pending, None, 0, None)))
  {
    ArriveKeepsCalls(w, c);
    ArriveKeepsSlot(w, c);
    ArriveKeepsPipes(w, c);
    ArriveKeepsAnswers(w, c);
    hide At, CallsOk, Mutex, OneLive, Once, PipesOk, SlotInUse, AnswersOk, KillsOk;
  }

  lemma CallStepKeepsInv(w: World, s: Step)
    requires Inv(w) && !s.Terminate? && !s.Dies? && !s.Answers? && s.c in w.calls
    ensures Inv(Do(w, s))
  {
    hide Inv, DoAcquire, DoLoadClaim, DoCheckExited, DoLaunch, DoLook, DoClaim, DoWrite, DoReadLine, DoRetireFailed,
         DoPanic, DoDeliver, DoTimesOut, Retire;
    match s
    case Arrive(c) =>
    case Acquire(c) => AcquireKeeps(w, c);
    case RetirePoisoned(c) => if w.calls[c].phase.Clearing? { RetirePoisonedKeeps(w, c); }
    case LoadClaim(c) => LoadClaimKeeps(w, c);
    case CheckExited(c, checkFails) => CheckExitedKeeps(w, c, checkFails);
    case Launch(c, started) => LaunchKeeps(w, c, started);
    case Look(c) => LookKeeps(w, c);
    case ClaimRequest(c) => ClaimKeeps(w, c);
    case Write(c, outcome) => WriteKeeps(w, c, outcome);
    case ReadLine(c, fails) => ReadLineKeeps(w, c, fails);
    case RetireFailed(c) => RetireFailedKeeps(w, c);
    case Panic(c) => PanicKeeps(w, c);
    case Deliver(c) => DeliverKeeps(w, c);
    case TimesOut(c) => TimesOutKeeps(w, c);
  }

  /** Every step of a caller, its worker, its timeout or a process keeps every invariant. */
  lemma StepKeepsInv(w: World, s: Step)
    requires Inv(w)
    ensures Inv(Do(w, s))
  {
    if s.Terminate? || s.Dies? || s.Answers? {
      ProcessKeeps(w, s);
    } else if s.c in w.calls {
      CallStepKeepsInv(w, s);
    } else if s.Arrive? {
      ArriveKeeps(w, s.c);
    }
    hide Inv, DoProcess;
  }

  lemma {:induction false} RunKeepsInv(w: World, steps: seq<Step>)
    requires Inv(w)
    ensures Inv(RunFrom(w, steps))
    decreases |steps|
  {
    if steps != [] {
      RunKeepsInv(w, steps[..|steps| - 1]);
      hide Inv, Do;
      StepKeepsInv(RunFrom(w, steps[..|steps| - 1]), steps[|steps| - 1]);
    }
  }

  lemma StartKeepsInv(first: Option<Pid>)
    ensures Inv(Start(first))
  {
  }

  // ---------------------------------------------------------------- never sent, sent once

  /** A caller that this crate told its request was not sent. */
  predicate ToldNotSent(w: World, c: CallId) {
    c in w.calls
    && (w.calls[c].told == Some(Raised(BridgeBusy)) || w.calls[c].told == Some(Raised(BackendUnavailable)))
  }

  // A step leaves every call alone but its own.
  lemma OthersStay(w: World, s: Step, d: CallId)
    requires d in w.calls && (s.Terminate? || s.Dies? || s.Answers? || s.c != d)
    ensures d in Do(w, s).calls && Do(w, s).calls[d] == w.calls[d]
  {
    if s.Terminate? || s.Dies? || s.Answers? {
      hide Killed;
    } else if LongStep(s) && s.c in w.calls {
      LongStepMovesOn(w, s);
      hide Do;
    } else {
      hide DoReadLine, DoWrite, DoCheckExited, DoRetireFailed, DoLaunch, DoProcess, Retire;
    }
  }

  // The long steps of a worker: only its own call moves on, and of that only phase and id.
  predicate MovesOn(w: World, n: World, c: CallId)
    requires c in w.calls
  {
    && c in n.calls && n.calls[c] == w.calls[c].(phase := n.calls[c].phase, id := n.calls[c].id)
    && n.calls == w.calls[c := n.calls[c]] && n.kills == w.kills
  }

  lemma ReadMovesOn(w: World, c: CallId, fails: bool)
    requires c in w.calls
    ensures MovesOn(w, DoReadLine(w, c, fails), c)
    ensures DoReadLine(w, c, fails).given == w.given && DoReadLine(w, c, fails).deliveries == w.deliveries
    ensures DoReadLine(w, c, fails).processes.Keys == w.processes.Keys
  {
    hide ParseResponse, BreaksBridge;
  }

  lemma WriteMovesOn(w: World, c: CallId, outcome: WriteOutcome)
    requires c in w.calls
    ensures MovesOn(w, DoWrite(w, c, outcome), c)
    ensures DoWrite(w, c, outcome).given == w.given && DoWrite(w, c, outcome).processes.Keys == w.processes.Keys
  {
  }

  lemma RecoveryMovesOn(w: World, c: CallId, checkFails: bool, started: Option<Pid>)
    requires c in w.calls
    ensures MovesOn(w, DoCheckExited(w, c, checkFails), c) && MovesOn(w, DoRetireFailed(w, c), c)
    ensures MovesOn(w, DoLaunch(w, c, started), c)
    ensures DoCheckExited(w, c, checkFails).processes.Keys == DoRetireFailed(w, c).processes.Keys == w.processes.Keys
  {
    hide Killed;
    KilledKeys(w.processes, w.slot);
  }

  lemma KilledKeys(processes: map<Pid, Process>, slot: Slot)
    ensures slot.Ready? ==> Killed(processes, slot.pid).Keys == processes.Keys
  {
  }

  lemma KilledStopsOne(processes: map<Pid, Process>, slot: Slot)
    ensures slot.Ready? ==> forall p :: p in processes ==>
              p in Killed(processes, slot.pid) && (Killed(processes, slot.pid)[p].alive ==> processes[p].alive)
  {
  }

  /** A worker's long step, taken apart from the others. */
  predicate LongStep(s: Step) { s.ReadLine? || s.Write? || s.CheckExited? || s.RetireFailed? || s.Launch? }

  lemma LongStepMovesOn(w: World, s: Step)
    requires LongStep(s) && s.c in w.calls
    ensures MovesOn(w, Do(w, s), s.c)
    ensures !s.Launch? ==> Do(w, s).processes.Keys == w.processes.Keys
  {
    hide MovesOn, DoReadLine, DoWrite, DoCheckExited, DoRetireFailed, DoLaunch;
    match s
    case ReadLine(c, fails) => ReadMovesOn(w, c, fails);
    case Write(c, outcome) => WriteMovesOn(w, c, outcome);
    case CheckExited(c, checkFails) => RecoveryMovesOn(w, c, checkFails, None);
    case RetireFailed(c) => RecoveryMovesOn(w, c, false, None);
    case Launch(c, started) => RecoveryMovesOn(w, c, false, started);
  }

  lemma ToldStays(w: World, s: Step, c: CallId)
    requires c in w.calls && w.calls[c].told.Some?
    ensures c in Do(w, s).calls && Do(w, s).calls[c].told == w.calls[c].told
  {
    if s.Terminate? || s.Dies? || s.Answers? || s.c != c {
      OthersStay(w, s, c);
      hide Do;
    } else if LongStep(s) {
      LongStepMovesOn(w, s);
      hide Do;
    } else {
      hide DoReadLine, DoWrite, DoCheckExited, DoRetireFailed, DoLaunch, DoProcess, Retire;
    }
  }

  lemma {:induction false} ToldForever(w: World, steps: seq<Step>, c: CallId)
    requires c in w.calls && w.calls[c].told.Some?
    ensures c in RunFrom(w, steps).calls && RunFrom(w, steps).calls[c].told == w.calls[c].told
    decreases |steps|
  {
    if steps != [] {
      ToldForever(w, steps[..|steps| - 1], c);
      hide Do;
      ToldStays(RunFrom(w, steps[..|steps| - 1]), steps[|steps| - 1], c);
    }
  }

  /** Never sent means never sent: once a caller was told `bridge_busy` or `backend_unavailable` by
      this crate, no continuation of the run ever has its request line written to any process. */
  lemma NeverSentStaysUnsent(first: Option<Pid>, before: seq<Step>, after: seq<Step>, c: CallId)
    requires ToldNotSent(RunFrom(Start(first), before), c)
    ensures !Sent(RunFrom(RunFrom(Start(first), before), after), c)
  {
    var w := RunFrom(Start(first), before);
    StartKeepsInv(first);
    RunKeepsInv(Start(first), before);
    RunKeepsInv(w, after);
    ToldForever(w, after, c);
    var n := RunFrom(w, after);
    hide RunFrom, Mutex, OneLive, PipesOk, SlotInUse, AnswersOk, KillsOk;
    forall d | d in n.deliveries ensures d.caller != c {
      assert DeliveryOk(n.calls, d);
    }
  }

  /** Each request reaches at most one process, at most once, whatever times out, dies or recovers. */
  lemma WrittenAtMostOnce(first: Option<Pid>, steps: seq<Step>, i: nat, j: nat)
    requires var w := RunFrom(Start(first), steps);
             i < |w.deliveries| && j < |w.deliveries| && w.deliveries[i].caller == w.deliveries[j].caller
    ensures i == j
  {
    StartKeepsInv(first);
    RunKeepsInv(Start(first), steps);
    hide RunFrom, CallsOk, Mutex, OneLive, PipesOk, SlotInUse, AnswersOk, KillsOk;
  }

  /** A result that carries an answer is what this request's own process answered to it. */
  lemma OkIsOwnReply(first: Option<Pid>, steps: seq<Step>, c: CallId)
    requires var w := RunFrom(Start(first), steps);
             c in w.calls && w.calls[c].told.Some? && FromAnswer(w.calls[c].told.value)
    ensures var w := RunFrom(Start(first), steps);
            exists pid, id :: Delivery(c, pid, id) in w.deliveries && Given(c, pid, AnswerOf(w.calls[c].told.value)) in w.given
  {
    StartKeepsInv(first);
    RunKeepsInv(Start(first), steps);
    var w := RunFrom(Start(first), steps);
    hide RunFrom, CallsOk, Mutex, OneLive, PipesOk, SlotInUse, Once, KillsOk;
    assert AnswerOk(w, c, w.calls[c].told.value);
    assert Delivery(c, w.calls[c].writtenTo.value, w.calls[c].id) in w.deliveries;
  }

  // ---------------------------------------------------------------- recovery

  /** At most one process of the slot runs, and it is the one the slot would use. */
  lemma AtMostOneLive(first: Option<Pid>, steps: seq<Step>, p: Pid, q: Pid)
    requires var w := RunFrom(Start(first), steps);
             p in w.processes && q in w.processes && w.processes[p].alive && w.processes[q].alive
    ensures p == q && RunFrom(Start(first), steps).slot == Ready(p)
  {
    StartKeepsInv(first);
    RunKeepsInv(Start(first), steps);
    hide RunFrom, CallsOk, Mutex, Once, PipesOk, SlotInUse, AnswersOk, KillsOk;
  }

  // Only a launch adds a process, and it finds none running.
  lemma OnlyLaunchAdds(w: World, s: Step, p: Pid)
    requires OneLive(w) && Mutex(w) && p in Do(w, s).processes && p !in w.processes
    ensures forall q :: q in w.processes ==> !w.processes[q].alive
  {
    if !s.Launch? {
      OthersAddNone(w, s);
    }
    hide DoReadLine, DoWrite, DoTimesOut, DoCheckExited, DoRetireFailed, DoProcess, Retire;
  }

  lemma OthersAddNone(w: World, s: Step)
    requires !s.Launch?
    ensures Do(w, s).processes.Keys == w.processes.Keys
  {
    if s.Terminate? || s.Dies? || s.Answers? {
      hide MovesOn;
    } else if LongStep(s) && s.c in w.calls {
      LongStepMovesOn(w, s);
      hide Do, MovesOn;
    } else {
      KilledKeys(w.processes, w.slot);
      hide DoReadLine, DoWrite, DoCheckExited, DoRetireFailed, DoLaunch, DoProcess, Killed, Holds;
    }
  }

  /** A step that starts a process finds every earlier one exited or killed. */
  lemma ReplacedOnlyWhenDead(first: Option<Pid>, steps: seq<Step>, s: Step, p: Pid)
    requires var w := RunFrom(Start(first), steps); p in Do(w, s).processes && p !in w.processes
    ensures var w := RunFrom(Start(first), steps); forall q :: q in w.processes ==> !w.processes[q].alive
  {
    StartKeepsInv(first);
    RunKeepsInv(Start(first), steps);
    hide RunFrom, CallsOk, Mutex, OneLive, Once, PipesOk, SlotInUse, AnswersOk, KillsOk, Do;
    OnlyLaunchAdds(RunFrom(Start(first), steps), s, p);
  }

  /** With the lock free and not poisoned, everything written to the slot's process was answered and
      every answer was read. */
  lemma FreeMeansQuiet(first: Option<Pid>, steps: seq<Step>)
    ensures var w := RunFrom(Start(first), steps);
            w.holder.None? && !w.poisoned && w.slot.Ready? ==> w.slot.pid in w.processes && Quiet(w.processes[w.slot.pid])
  {
    StartKeepsInv(first);
    RunKeepsInv(Start(first), steps);
    hide RunFrom, CallsOk, Once, Mutex, SlotInUse, AnswersOk, KillsOk;
  }

  /** A worker left behind by a timeout is freed: once the kill its caller ordered has run, its read
      returns, with the late answer or with the end of the stream. */
  lemma TimedOutWorkerReturns(first: Option<Pid>, steps: seq<Step>, c: CallId)
    requires var w := RunFrom(Start(first), steps);
             c in w.calls && w.calls[c].told == Some(Raised(BridgeTimeout)) && w.calls[c].phase.Reading?
    ensures var w := RunFrom(Start(first), steps);
            && w.calls[c].writtenTo.Some?
            && (w.calls[c].writtenTo.value !in w.kills ==> !Do(w, ReadLine(c, false)).calls[c].phase.Reading?)
  {
    StartKeepsInv(first);
    RunKeepsInv(Start(first), steps);
    hide RunFrom, Do, CallsOk, Once, Mutex, AnswersOk, PipesOk, OneLive, SlotInUse, KillsOk;
    TimedOutIsKilled(RunFrom(Start(first), steps), c);
  }

  lemma TimedOutIsKilled(w: World, c: CallId)
    requires KillsOk(w) && SlotInUse(w) && c in w.calls
    requires w.calls[c].told == Some(Raised(BridgeTimeout)) && w.calls[c].phase.Reading?
    ensures w.calls[c].writtenTo.Some?
    ensures w.calls[c].writtenTo.value !in w.kills ==> !Do(w, ReadLine(c, false)).calls[c].phase.Reading?
  {
    hide ParseResponse;
  }

  // ---------------------------------------------------------------- the slot, as an object

  /** The slot after `recover`, by what the check and the launch found. */
  function Recovered(slot: Slot, alive: bool, checkFails: bool, started: Option<Pid>): Slot {
    if slot.Ready? && alive && !checkFails then slot
    else if started.Some? then Ready(started.value)
    else Unavailable
  }

  class BridgeProcess {
    const pid: Pid
    var alive: bool
    var terminated: bool

    constructor (pid: Pid)
      ensures this.pid == pid && alive && !terminated
    {
      this.pid, alive, terminated := pid, true, false;
    }

    /** Kills and reaps the process; killing it again changes nothing. */
    method Terminate()
      modifies this
      ensures !alive && terminated
      ensures !old(alive) && old(terminated) ==> alive == old(alive) && terminated == old(terminated)
    {
      if !terminated {
        terminated := true;
      }
      alive := false;
    }

    method HasExited(checkFails: bool) returns (exited: bool)
      ensures exited <==> !alive || checkFails
    {
      exited := checkFails || !alive;
    }
  }

  class BridgeSlot {
    var process: BridgeProcess?
    const mayLaunch: bool

    constructor (first: BridgeProcess?, mayLaunch: bool)
      ensures process == first && this.mayLaunch == mayLaunch
    {
      process, this.mayLaunch := first, mayLaunch;
    }

    function State(): Slot
      reads this
    {
      if process == null then Unavailable else Ready(process.pid)
    }

    /** Stops the current process, if there is one, before the slot forgets it. */
    method Retire()
      modifies this, process
      ensures State() == Unavailable
      ensures old(process) != null ==> !old(process).alive && old(process).terminated
    {
      if process != null {
        process.Terminate();
      }
      process := null;
    }

    /** Keeps a process that runs; otherwise kills what is left of it before taking `launched`, the
        launcher's result. A slot is never left with an earlier process running. */
    method Recover(checkFails: bool, launched: BridgeProcess?)
      requires launched != process || launched == null
      modifies this, process
      ensures State() == old(Recovered(State(), process != null && process.alive, checkFails,
                                       if launched != null && mayLaunch then Some(launched.pid) else None))
      ensures old(process) != null && old(process) != process ==> !old(process).alive
      ensures process == old(process) || process == null || process == launched
      ensures process == old(process) && process != null ==> process.alive == old(process.alive)
    {
      if process != null {
        var exited := process.HasExited(checkFails);
        if !exited {
          return;
        }
        Retire();
      }
      if mayLaunch {
        process := launched;
      }
    }
  }

  /** The two steps of the protocol's recovery have the object's outcome. */
  lemma RecoveryStepsAreRecover(w: World, c: CallId, checkFails: bool, started: Option<Pid>)
    requires Inv(w) && c in w.calls && w.calls[c].phase.Recovering? && (started.Some? ==> started.value !in w.processes)
    ensures var n := DoLaunch(DoCheckExited(w, c, checkFails), c, started);
            && n.slot == Recovered(w.slot, w.slot.Ready? && w.processes[w.slot.pid].alive, checkFails, started)
            && n.calls[c].phase.Looking?
            && (forall p :: p in w.processes && n.slot != Ready(p) ==> !n.processes[p].alive)
  {
    hide CallsOk, Once, PipesOk, SlotInUse, AnswersOk, KillsOk;
  }
}
