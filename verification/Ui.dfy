/** The window's state machine: discovery, selection, status reads, playback and sound commands, with
    answers that arrive late, twice or in another order. */
module Ui {
  import opened Domain

  type DeviceId = nat

  datatype Device = Device(id: DeviceId, name: string, known: bool, available: bool)

  datatype PlaybackKind = KindPlaying | KindPaused | KindBuffering | KindIdle | KindUndetermined

  datatype Media = Media(
    kind: PlaybackKind, position: Option<real>, duration: Option<real>,
    supportsSeek: Option<bool>, supportsPause: Option<bool>)

  datatype Sound = Sound(level: Option<real>, muted: Option<bool>, fixed: bool)

  datatype Status = Status(deviceId: DeviceId, connected: bool, sound: Option<Sound>, media: Option<Media>)

  datatype Discovery = NotSearched | Searching | Searched | SearchFailed

  datatype StatusView = NoStatus | Loading(requestId: nat) | Ready(status: Status) | StatusFailed

  datatype Order = DoPlay | DoPause | DoStop | DoSeek | DoVolume | DoMute

  datatype SoundTarget = ToPercent(percent: int) | ToMuted(muted: bool)

  datatype CommandView =
    | NoCommand
    | Sending(requestId: nat, order: Order, target: Option<int>, sound: Option<SoundTarget>)
    | Confirmed(order: Order)
    | SentOnly(order: Order)
    | CommandFailed(order: Order)

  /** `remote` is the request in flight on the TV's own remote channel, if any. */
  datatype Ui = Ui(
    devices: seq<Device>, discovery: Discovery, selected: Option<Device>, status: StatusView,
    command: CommandView, seekDraft: Option<int>, volumeDraft: Option<int>,
    remote: Option<nat>, forgetting: Option<DeviceId>, nextRequestId: nat)

  /** A request the window sends. Discovery and forgetting carry no id: each has one answer. */
  datatype Request =
    | ReadStatus(requestId: nat, deviceId: DeviceId)
    | SendOrder(requestId: nat, deviceId: DeviceId, order: Order, target: Option<int>, sound: Option<SoundTarget>)
    | UseRemote(requestId: nat, deviceId: DeviceId)
    | Discover
    | Forget(deviceId: DeviceId)

  datatype StatusOutcome = StatusRead(status: Status) | StatusRefused

  datatype Confirmation = IsConfirmed | Unconfirmed | NotChecked

  datatype OrderOutcome =
    | OrderDone(order: Order, deviceId: DeviceId, confirmation: Confirmation, observed: Option<Status>)
    | OrderRefused

  const START := Ui([], NotSearched, None, NoStatus, NoCommand, None, None, None, None, 1)

  // ---------------------------------------------------------------- one request at a time

  predicate Idle(u: Ui) {
    !u.discovery.Searching? && !u.status.Loading? && !u.command.Sending? && u.remote.None? && u.forgetting.None?
  }

  function FindDevice(devices: seq<Device>, id: DeviceId): Option<Device> {
    if devices == [] then None
    else if devices[0].id == id then Some(devices[0])
    else FindDevice(devices[1..], id)
  }

  function StartDiscovery(u: Ui): Ui {
    u.(devices := [], discovery := Searching, command := NoCommand, seekDraft := None, volumeDraft := None)
  }

  function Unselected(u: Ui): Ui {
    u.(selected := None, status := NoStatus, command := NoCommand, seekDraft := None, volumeDraft := None, remote := None)
  }

  function FinishDiscovery(u: Ui, devices: seq<Device>): Ui {
    var next := u.(devices := devices, discovery := Searched);
    if u.selected.None? then next
    else
      var still := FindDevice(devices, u.selected.value.id);
      if still.Some? then next.(selected := still) else Unselected(next)
  }

  function Known(devices: seq<Device>, id: DeviceId, known: bool): seq<Device> {
    seq(|devices|, i requires 0 <= i < |devices| => if devices[i].id == id then devices[i].(known := known) else devices[i])
  }

  function RememberDevice(u: Ui, id: DeviceId): Ui {
    u.(devices := Known(u.devices, id, true),
       selected := if u.selected.Some? && u.selected.value.id == id then Some(u.selected.value.(known := true)) else u.selected)
  }

  function StillAvailable(devices: seq<Device>, id: DeviceId): seq<Device> {
    if devices == [] then []
    else
      var rest := StillAvailable(devices[1..], id);
      if devices[0].id != id then [devices[0]] + rest
      else if !devices[0].available then rest
      else [devices[0].(known := false)] + rest
  }

  function ForgetDevice(u: Ui, id: DeviceId): Ui {
    var next := u.(forgetting := None, devices := StillAvailable(u.devices, id));
    if u.selected.None? || u.selected.value.id != id then next else Unselected(next)
  }

  function BeginStatusRead(u: Ui, selected: Device): (Ui, Request) {
    (u.(selected := Some(selected),
        remote := if u.selected.Some? && u.selected.value.id == selected.id then u.remote else None,
        status := Loading(u.nextRequestId), command := NoCommand, seekDraft := None, volumeDraft := None,
        nextRequestId := u.nextRequestId + 1),
     ReadStatus(u.nextRequestId, selected.id))
  }

  function FinishStatusRead(u: Ui, requestId: nat, outcome: StatusOutcome): Ui {
    if u.status != Loading(requestId) then u
    else if outcome.StatusRefused? then u.(status := StatusFailed)
    else if u.selected.None? || outcome.status.deviceId != u.selected.value.id then u.(status := StatusFailed)
    else u.(status := Ready(outcome.status))
  }

  // ---------------------------------------------------------------- what the observed state offers

  function Round(r: real): int { (r + 0.5).Floor }
  function Max(a: int, b: int): int { if a > b then a else b }
  function Min(a: int, b: int): int { if a < b then a else b }

  /** A whole number of seconds within [0, max]. */
  function ClampSeek(seconds: real, max: int): int { Min(Max(Round(seconds), 0), Max(max, 0)) }

  predicate MaySeek(m: Media) {
    m.supportsSeek == Some(true) && m.duration.Some? && m.duration.value > 0.0 && m.position.Some?
  }

  datatype Controls = Hidden | Controls(primary: Option<Order>, stop: bool, seekMax: Option<int>)

  function DescribeControls(u: Ui): Controls {
    if u.selected.None? || !u.status.Ready? || !u.status.status.connected || u.status.status.media.None? then Hidden
    else
      var media := u.status.status.media.value;
      if media.kind.KindIdle? || media.kind.KindUndetermined? then Controls(None, false, None)
      else
        Controls(
          if media.kind.KindPaused? then Some(DoPlay) else if media.supportsPause != Some(false) then Some(DoPause) else None,
          true,
          if MaySeek(media) then Some(media.duration.value.Floor) else None)
  }

  function Begin(u: Ui, order: Order, target: Option<int>, sound: Option<SoundTarget>): (Ui, Option<Request>) {
    if u.selected.None? then (u, None)
    else
      (u.(command := Sending(u.nextRequestId, order, target, sound), seekDraft := None, volumeDraft := None,
          nextRequestId := u.nextRequestId + 1),
       Some(SendOrder(u.nextRequestId, u.selected.value.id, order, target, sound)))
  }

  function StartTransport(u: Ui, order: Order): (Ui, Option<Request>) {
    var controls := DescribeControls(u);
    var offered := controls.Controls? && if order == DoStop then controls.stop else controls.primary == Some(order);
    if !Idle(u) || !offered then (u, None) else Begin(u, order, None, None)
  }

  function SeekMax(u: Ui): Option<int> {
    if DescribeControls(u).Controls? then DescribeControls(u).seekMax else None
  }

  function SetSeekDraft(u: Ui, seconds: Option<real>): Ui {
    if seconds.None? then u.(seekDraft := None)
    else if SeekMax(u).None? || !Idle(u) then u
    else u.(seekDraft := Some(ClampSeek(seconds.value, SeekMax(u).value)))
  }

  function ObservedPosition(u: Ui): Option<real> {
    if u.status.Ready? && u.status.status.media.Some? then u.status.status.media.value.position else None
  }

  function StartSeek(u: Ui): (Ui, Option<Request>) {
    if u.seekDraft.None? || SeekMax(u).None? || !Idle(u) then (u, None)
    else
      var target := ClampSeek(u.seekDraft.value as real, SeekMax(u).value);
      if ObservedPosition(u).Some? && Round(ObservedPosition(u).value) == target then (u.(seekDraft := None), None)
      else Begin(u, DoSeek, Some(target), None)
  }

  const MAX_RAISE_POINTS := 10

  function ClampPercent(value: int): int { Min(Max(value, 0), 100) }

  /** Never more than ten points above the level the TV last reported. */
  function LimitRaise(percent: int, reported: int): int {
    Min(ClampPercent(percent), Min(reported + MAX_RAISE_POINTS, 100))
  }

  function ReportedSound(u: Ui): Option<Sound> {
    if u.selected.Some? && u.status.Ready? && u.status.status.connected then u.status.status.sound else None
  }

  /** The level in whole percent, when the TV reported one that can be changed. */
  function ReportedPercent(u: Ui): Option<int> {
    var sound := ReportedSound(u);
    if sound.Some? && sound.value.level.Some? && !sound.value.fixed then Some(Round(sound.value.level.value * 100.0)) else None
  }

  function SetVolumeDraft(u: Ui, percent: Option<real>): Ui {
    if percent.None? then u.(volumeDraft := None)
    else if ReportedPercent(u).None? || !Idle(u) then u
    else
      var limited := LimitRaise(Round(percent.value), ReportedPercent(u).value);
      u.(volumeDraft := if limited == ReportedPercent(u).value then None else Some(limited))
  }

  function StartVolume(u: Ui): (Ui, Option<Request>) {
    if u.volumeDraft.None? || ReportedPercent(u).None? || !Idle(u) then (u, None)
    else
      var target := LimitRaise(u.volumeDraft.value, ReportedPercent(u).value);
      if target == ReportedPercent(u).value then (u.(volumeDraft := None), None)
      else Begin(u, DoVolume, None, Some(ToPercent(target)))
  }

  function StartMute(u: Ui): (Ui, Option<Request>) {
    var sound := ReportedSound(u);
    if sound.None? || sound.value.muted.None? || !Idle(u) then (u, None)
    else Begin(u, DoMute, None, Some(ToMuted(!sound.value.muted.value)))
  }

  function FinishCommand(u: Ui, requestId: nat, outcome: OrderOutcome): Ui {
    if !u.command.Sending? || u.command.requestId != requestId then u
    else
      var order := u.command.order;
      if outcome.OrderRefused? then u.(command := CommandFailed(order))
      else if u.selected.None? || outcome.deviceId != u.selected.value.id || outcome.order != order
              || (outcome.observed.Some? && outcome.observed.value.deviceId != u.selected.value.id) then
        u.(command := CommandFailed(order))
      else
        u.(status := if outcome.observed.None? then u.status else Ready(outcome.observed.value),
           command := if outcome.confirmation.IsConfirmed? then Confirmed(order) else SentOnly(order))
  }

  // ---------------------------------------------------------------- events

  /** What a person does, and what comes back. Answers to reads, orders and remote requests carry an
      id and may come at any time, any number of times. */
  datatype Event =
    | PressDiscover | DevicesFound(devices: seq<Device>) | DiscoveryFailed
    | Choose(deviceId: DeviceId) | Remembered(deviceId: DeviceId) | PressRefresh
    | PressForget(deviceId: DeviceId) | Forgotten | ForgetRefused
    | StatusAnswer(requestId: nat, readOutcome: StatusOutcome)
    | PressTransport(order: Order) | DragSeek(seconds: Option<real>) | CommitSeek
    | DragVolume(percent: Option<real>) | CommitVolume | PressMute
    | OrderAnswer(requestId: nat, outcome: OrderOutcome)
    | PressRemote | RemoteAnswer(requestId: nat)

  function React(u: Ui, e: Event): (Ui, Option<Request>) {
    match e
    case PressDiscover => if Idle(u) then (StartDiscovery(u), Some(Discover)) else (u, None)
    case DevicesFound(devices) => (if u.discovery.Searching? then FinishDiscovery(u, devices) else u, None)
    case DiscoveryFailed => (if u.discovery.Searching? then u.(devices := [], discovery := SearchFailed) else u, None)
    case Choose(id) =>
      var device := FindDevice(u.devices, id);
      if device.None? || !Idle(u) then (u, None)
      else (BeginStatusRead(u, device.value).0, Some(BeginStatusRead(u, device.value).1))
    case Remembered(id) => (RememberDevice(u, id), None)
    case PressRefresh =>
      if u.selected.None? || !Idle(u) then (u, None)
      else (BeginStatusRead(u, u.selected.value).0, Some(BeginStatusRead(u, u.selected.value).1))
    case PressForget(id) => if Idle(u) then (u.(forgetting := Some(id)), Some(Forget(id))) else (u, None)
    case Forgotten => (if u.forgetting.Some? then ForgetDevice(u, u.forgetting.value) else u, None)
    case ForgetRefused => (u.(forgetting := None), None)
    case StatusAnswer(requestId, outcome) => (FinishStatusRead(u, requestId, outcome), None)
    case PressTransport(order) => StartTransport(u, order)
    case DragSeek(seconds) => (SetSeekDraft(u, seconds), None)
    case CommitSeek => StartSeek(u)
    case DragVolume(percent) => (SetVolumeDraft(u, percent), None)
    case CommitVolume => StartVolume(u)
    case PressMute => StartMute(u)
    case OrderAnswer(requestId, outcome) => (FinishCommand(u, requestId, outcome), None)
    case PressRemote =>
      if u.selected.None? || !Idle(u) then (u, None)
      else (u.(remote := Some(u.nextRequestId), nextRequestId := u.nextRequestId + 1),
            Some(UseRemote(u.nextRequestId, u.selected.value.id)))
    case RemoteAnswer(requestId) => (if u.remote == Some(requestId) then u.(remote := None) else u, None)
  }

  /** The request whose answer the window waits for. */
  predicate Awaits(u: Ui, r: Request) {
    match r
    case ReadStatus(id, device) => u.status == Loading(id) && u.selected.Some? && u.selected.value.id == device
    case SendOrder(id, device, order, target, sound) =>
      u.command == Sending(id, order, target, sound) && u.selected.Some? && u.selected.value.id == device
    case UseRemote(id, device) => u.remote == Some(id) && u.selected.Some? && u.selected.value.id == device
    case Discover => u.discovery.Searching?
    case Forget(id) => u.forgetting == Some(id)
  }

  /** `sent` is history: every request that left the window, in order. */
  datatype World = World(ui: Ui, sent: seq<Request>)

  function Next(w: World, e: Event): World {
    var (ui, request) := React(w.ui, e);
    World(ui, if request.None? then w.sent else w.sent + [request.value])
  }

  function RunOf(events: seq<Event>): World {
    if events == [] then World(START, []) else Next(RunOf(events[..|events| - 1]), events[|events| - 1])
  }

  predicate HasId(r: Request) { r.ReadStatus? || r.SendOrder? || r.UseRemote? }

  function InFlight(u: Ui): nat {
    (if u.discovery.Searching? then 1 else 0) + (if u.status.Loading? then 1 else 0)
    + (if u.command.Sending? then 1 else 0) + (if u.remote.Some? then 1 else 0) + (if u.forgetting.Some? then 1 else 0)
  }

  // ---------------------------------------------------------------- what every run keeps

  predicate StatusBelongs(u: Ui) {
    && (u.status.Ready? ==> u.selected.Some? && u.status.status.deviceId == u.selected.value.id)
    && (u.status.Loading? || u.command.Sending? || u.remote.Some? ==> u.selected.Some?)
  }

  /** Ids only grow, and the one request the window waits for is the last it sent. */
  predicate SingleFlight(w: World) {
    && StatusBelongs(w.ui)
    && InFlight(w.ui) <= 1
    && (forall k :: 0 <= k < |w.sent| && HasId(w.sent[k]) ==> w.sent[k].requestId < w.ui.nextRequestId)
    && (forall i, j :: 0 <= i < j < |w.sent| && HasId(w.sent[i]) && HasId(w.sent[j]) ==>
          w.sent[i].requestId < w.sent[j].requestId)
    && (InFlight(w.ui) == 1 ==> w.sent != [] && Awaits(w.ui, w.sent[|w.sent| - 1]))
  }

  lemma {:induction false} FoundHasId(devices: seq<Device>, id: DeviceId)
    ensures FindDevice(devices, id).Some? ==> FindDevice(devices, id).value in devices && FindDevice(devices, id).value.id == id
    ensures FindDevice(devices, id).None? ==> forall d :: d in devices ==> d.id != id
  {
    if devices != [] {
      FoundHasId(devices[1..], id);
    }
  }

  lemma BeginKeeps(u: Ui, order: Order, target: Option<int>, sound: Option<SoundTarget>)
    requires StatusBelongs(u) && InFlight(u) == 0
    ensures var (n, r) := Begin(u, order, target, sound);
            && StatusBelongs(n) && (r.None? ==> n == u)
            && (r.Some? ==> InFlight(n) == 1 && r.value.SendOrder? && r.value.requestId == u.nextRequestId
                            && n.nextRequestId == u.nextRequestId + 1 && Awaits(n, r.value))
  {
  }

  /** A reaction sends only while nothing is in flight, and then waits for exactly what it sent. */
  lemma ReactionSends(u: Ui, e: Event)
    requires StatusBelongs(u) && InFlight(u) <= 1
    ensures var (n, r) := React(u, e);
            && StatusBelongs(n)
            && (r.Some? ==>
                  && InFlight(u) == 0 && InFlight(n) == 1 && Awaits(n, r.value)
                  && (HasId(r.value) ==> r.value.requestId == u.nextRequestId && n.nextRequestId == u.nextRequestId + 1)
                  && (!HasId(r.value) ==> n.nextRequestId == u.nextRequestId))
            && (r.None? ==> n.nextRequestId == u.nextRequestId && InFlight(n) <= InFlight(u))
  {
    hide Begin, DescribeControls, SeekMax, ClampSeek, LimitRaise, ReportedPercent, Round, ObservedPosition, Known, StillAvailable;
    match e
    case Choose(id) => FoundHasId(u.devices, id);
    case DevicesFound(devices) => if u.selected.Some? { FoundHasId(devices, u.selected.value.id); }
    case PressTransport(order) => if Idle(u) { BeginKeeps(u, order, None, None); }
    case CommitSeek =>
      if Idle(u) && u.seekDraft.Some? && SeekMax(u).Some? {
        BeginKeeps(u, DoSeek, Some(ClampSeek(u.seekDraft.value as real, SeekMax(u).value)), None);
      }
    case CommitVolume =>
      if Idle(u) && u.volumeDraft.Some? && ReportedPercent(u).Some? {
        BeginKeeps(u, DoVolume, None, Some(ToPercent(LimitRaise(u.volumeDraft.value, ReportedPercent(u).value))));
      }
    case PressMute =>
      if Idle(u) && ReportedSound(u).Some? && ReportedSound(u).value.muted.Some? {
        BeginKeeps(u, DoMute, None, Some(ToMuted(!ReportedSound(u).value.muted.value)));
      }
    case _ =>
  }

  /** A reaction that sends nothing keeps waiting for the same request, or for none. */
  lemma ReactionKeepsWaiting(u: Ui, e: Event, r: Request)
    requires StatusBelongs(u) && InFlight(u) == 1 && Awaits(u, r)
    requires React(u, e).1.None? && InFlight(React(u, e).0) == 1
    ensures Awaits(React(u, e).0, r)
  {
    hide DescribeControls, SeekMax, ClampSeek, LimitRaise, ReportedPercent, Round, ObservedPosition, Known, StillAvailable;
    match e
    case DevicesFound(devices) => if u.selected.Some? { FoundHasId(devices, u.selected.value.id); }
    case _ =>
  }

  lemma NextKeepsSound(w: World, e: Event)
    requires SingleFlight(w)
    ensures SingleFlight(Next(w, e))
  {
    ReactionSends(w.ui, e);
    var (n, r) := React(w.ui, e);
    if r.None? && InFlight(n) == 1 {
      ReactionKeepsWaiting(w.ui, e, w.sent[|w.sent| - 1]);
    }
    hide React, StatusBelongs, Awaits, InFlight;
  }

  lemma {:induction false} RunKeepsSound(events: seq<Event>)
    ensures SingleFlight(RunOf(events))
  {
    if events != [] {
      RunKeepsSound(events[..|events| - 1]);
      hide Next, SingleFlight;
      NextKeepsSound(RunOf(events[..|events| - 1]), events[|events| - 1]);
    }
  }

  // ---------------------------------------------------------------- main results

  /** Over every sequence of events: at most one request is in flight and it is the last one sent,
      request ids never repeat, and a ready status is that of the selected TV. */
  lemma RunSafety(events: seq<Event>)
    ensures var w := RunOf(events);
            && InFlight(w.ui) <= 1
            && (InFlight(w.ui) == 1 ==> w.sent != [] && Awaits(w.ui, w.sent[|w.sent| - 1]))
            && (forall i, j :: 0 <= i < j < |w.sent| && HasId(w.sent[i]) && HasId(w.sent[j]) ==>
                  w.sent[i].requestId != w.sent[j].requestId)
            && (w.ui.status.Ready? ==> w.ui.selected.Some? && w.ui.status.status.deviceId == w.ui.selected.value.id)
  {
    RunKeepsSound(events);
    hide RunOf, InFlight, Awaits;
  }

  /** A request leaves only when every request before it has been answered or given up for good. */
  lemma SentOneByOne(events: seq<Event>, e: Event)
    requires React(RunOf(events).ui, e).1.Some?
    ensures InFlight(RunOf(events).ui) == 0
    ensures var n := Next(RunOf(events), e);
            InFlight(n.ui) == 1 && forall k :: 0 <= k < |n.sent| - 1 && HasId(n.sent[k]) ==> !Awaits(n.ui, n.sent[k])
  {
    RunKeepsSound(events);
    var w := RunOf(events);
    ReactionSends(w.ui, e);
    NextKeepsSound(w, e);
    var n := Next(w, e);
    var last := n.sent[|n.sent| - 1];
    hide RunOf, React;
    forall k | 0 <= k < |n.sent| - 1 && HasId(n.sent[k]) ensures !Awaits(n.ui, n.sent[k]) {
      if HasId(last) {
        assert n.sent[k].requestId < last.requestId;
      }
    }
  }

  predicate AnswersId(e: Event, id: nat) {
    match e
    case StatusAnswer(requestId, _) => requestId == id
    case OrderAnswer(requestId, _) => requestId == id
    case RemoteAnswer(requestId) => requestId == id
    case _ => false
  }

  /** The id was given out and its answer is not awaited. */
  predicate Spent(u: Ui, id: nat) {
    && id < u.nextRequestId && u.status != Loading(id) && u.remote != Some(id)
    && !(u.command.Sending? && u.command.requestId == id)
  }

  lemma SpentStays(u: Ui, e: Event, id: nat)
    requires Spent(u, id)
    ensures Spent(React(u, e).0, id)
  {
    hide DescribeControls, SeekMax, ClampSeek, LimitRaise, ReportedPercent, Round, ObservedPosition, Known, StillAvailable,
         FindDevice;
  }

  // The state after more events.
  function After(u: Ui, events: seq<Event>): Ui
    decreases |events|
  {
    if events == [] then u else After(React(u, events[0]).0, events[1..])
  }

  lemma {:induction false} SpentForever(u: Ui, events: seq<Event>, id: nat)
    requires Spent(u, id)
    ensures Spent(After(u, events), id)
    decreases |events|
  {
    if events != [] {
      SpentStays(u, events[0], id);
      hide React, Spent;
      SpentForever(React(u, events[0]).0, events[1..], id);
    }
  }

  /** A stale answer changes nothing: once an id is spent, an answer that carries it, of whatever
      kind and content, leaves the window as it is, whatever happened meanwhile. */
  lemma StaleAnswerChangesNothing(u: Ui, more: seq<Event>, e: Event, id: nat)
    requires Spent(u, id) && AnswersId(e, id)
    ensures React(After(u, more), e).0 == After(u, more)
  {
    SpentForever(u, more, id);
    hide After;
  }

  /** What spends an id: the answer of its own kind, or a selection that gives it up. */
  lemma AnsweredIsSpent(events: seq<Event>, e: Event, id: nat)
    requires id < RunOf(events).ui.nextRequestId && AnswersId(e, id)
    requires var u := RunOf(events).ui;
             (u.status == Loading(id) ==> e.StatusAnswer?) && (u.remote == Some(id) ==> e.RemoteAnswer?)
             && (u.command.Sending? && u.command.requestId == id ==> e.OrderAnswer?)
    ensures Spent(React(RunOf(events).ui, e).0, id)
  {
    RunKeepsSound(events);
    hide RunOf;
  }

  /** Every seek sent asks for a whole second of the media the TV reports, within 0..floor(duration),
      on the TV whose status is shown, and not where it already is. */
  lemma SentSeekInRange(events: seq<Event>, e: Event)
    ensures var u := RunOf(events).ui;
            var r := React(u, e).1;
            r.Some? && r.value.SendOrder? && r.value.order == DoSeek ==>
              && u.status.Ready? && u.status.status.connected && u.status.status.deviceId == r.value.deviceId
              && u.status.status.media.Some?
              && var media := u.status.status.media.value;
                 && MaySeek(media) && r.value.target.Some?
                 && 0 <= r.value.target.value <= media.duration.value.Floor
                 && r.value.target.value as real <= media.duration.value
                 && r.value.target.value != Round(media.position.value)
  {
    RunKeepsSound(events);
    var u := RunOf(events).ui;
    hide RunOf, InFlight, Awaits;
    if e.CommitSeek? && u.seekDraft.Some? && SeekMax(u).Some? {
      ClampInRange(u.seekDraft.value as real, SeekMax(u).value);
      FloorNotNegative(u.status.status.media.value.duration.value);
    }
    hide ClampSeek, Round, LimitRaise, ReportedPercent;
  }

  lemma ClampInRange(seconds: real, max: int)
    ensures 0 <= ClampSeek(seconds, max) <= Max(max, 0)
  {
  }

  lemma FloorNotNegative(r: real)
    requires r > 0.0
    ensures 0 <= r.Floor
  {
  }

  /** Every other order is one the reported state offers: play only what is paused, pause only what
      runs and may be paused, mute to the opposite of what is reported, and a volume at most ten
      points above the reported one, never above 100 and, from a reported level, never below 0. */
  lemma SentOrderIsOffered(events: seq<Event>, e: Event)
    ensures var u := RunOf(events).ui;
            var r := React(u, e).1;
            r.Some? && r.value.SendOrder? ==>
              && u.status.Ready? && u.status.status.connected && u.status.status.deviceId == r.value.deviceId
              && match r.value.order
                 case DoPlay => u.status.status.media.Some? && u.status.status.media.value.kind.KindPaused?
                 case DoPause =>
                   && u.status.status.media.Some?
                   && (u.status.status.media.value.kind.KindPlaying? || u.status.status.media.value.kind.KindBuffering?)
                   && u.status.status.media.value.supportsPause != Some(false)
                 case DoMute =>
                   && u.status.status.sound.Some?
                   && u.status.status.sound.value.muted.Some? && r.value.sound == Some(ToMuted(!u.status.status.sound.value.muted.value))
                 case DoVolume =>
                   && ReportedPercent(u).Some? && r.value.sound.Some? && r.value.sound.value.ToPercent?
                   && var percent, reported := r.value.sound.value.percent, ReportedPercent(u).value;
                      percent != reported && percent <= reported + 10 && percent <= 100 && (0 <= reported ==> 0 <= percent)
                 case _ => true
  {
    RunKeepsSound(events);
    hide RunOf, InFlight, Awaits, ClampSeek, Round;
  }

  /** The shown state comes from the TV alone: a ready status appears only as the content of an awaited
      answer about the selected TV. */
  lemma StatusComesFromAnswers(u: Ui, e: Event)
    requires React(u, e).0.status.Ready? && React(u, e).0.status != u.status
    ensures var status := React(u, e).0.status.status;
            && u.selected.Some? && status.deviceId == u.selected.value.id
            && (|| (e.StatusAnswer? && u.status == Loading(e.requestId) && e.readOutcome == StatusRead(status))
                || (e.OrderAnswer? && u.command.Sending? && u.command.requestId == e.requestId
                    && e.outcome.OrderDone? && e.outcome.observed == Some(status) && e.outcome.order == u.command.order))
  {
    hide DescribeControls, SeekMax, ClampSeek, LimitRaise, ReportedPercent, Round, ObservedPosition, Known, StillAvailable,
         FindDevice;
  }
}
