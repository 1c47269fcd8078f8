# control-TV: verified models of its protocols and algorithms

control-TV sends commands to televisions and must never claim more than it observed: a command is
sent once, is confirmed only by what the TV reports, and leaves evidence that an offline checker can
judge. This project models the parts of the repository where that is hard to get right and proves what
they promise, for every input, every run and every interleaving. `dafny verify dfyconfig.toml` checks
it. Where the code and its documentation disagree the model follows the code.

| Modules | What they model |
|---|---|
| `Domain`, `Confirmation` | A status read, the sticky identity check as an object, the expected states of each command, and the confirmation loop against an adversarial receiver and clock (`src/control_tv/service.py`). |
| `CommandTrace` | The trace recorder as an object with a sink whose writes may fail (`src/control_tv/command_trace.py`). |
| `Evidence` | The offline classifier of C6 and C7, check by check, with its three outcomes (`scripts/acceptance_trace_evidence.py`). |
| `AcceptanceRun`, `RunShape`, `RunInvariant` | A run as atomic steps of remotes, recorders, the hold directory, independent observers and a TV that may report anything at any time. A `timeline` no participant sees keeps what really happened, in order. |
| `EvidenceTheorems`, `SendEvidence` | What a verdict on loaded evidence says about the run that left it, and which losses it notices. |
| `HonestRun`, `LostSend` | Families of runs, step by step: for every playback command one whose evidence passes C6 and which one lost write makes fail, and for every command sent twice for one application request one whose lost send C7 does not notice. |
| `Bridge`, `BridgeKills` | Callers, their workers and timeouts, the locked slot, and processes that die at any point, one step for each lock, claim, write, read, retirement and kill; and which requests the kill of a timed-out one may hit (`src-tauri/src/bridge.rs`). |
| `Ui` | The window's state machine over events that come late, twice or in another order (`ui/src/model.ts`, `ui/src/playback.ts`, `ui/src/sound.ts`). |
| `Display` | The display-layout editor (`ui/src/display.ts`). |
| `Lexer` | The TypeScript blanker of the type rules (`scripts/dev.py`). |
| `WebRtcTask`, `WebRtc` | The reconnecting supervision task over every script of outcomes, as a function of the script and as the objects that compute it (`src-tauri/src/webrtc_commands.rs`). |
| `Closure` | The crate closure and the Python package closure of the packaging scripts. |
| `Diagnostics`, `Latency`, `Archive` | The bounded duplicate window, percentiles and the filmed key step, and the `ar` archive reader. |

## Main results

- **C6 is sound without a shared clock** (`EvidenceTheorems.C6Soundness`): from any interleaving, any
  lost writes and any loaded subset of what was written, a PASS means that the TV reported the captured
  session to the observer after the send had returned, and another session before the first
  confirmation read. It is also exact on complete evidence (`C6ExactlyWhen`).
- **Loss on the remote's side is fail-closed** (`FailClosed`); which losses on the observer's side are
  noticed is known exactly (`ObserverLossBlocksExactlyWhen`).
- **C7 is exact on whatever is loaded** (`SendEvidence.C7ExactlyWhen`): on any loaded events the run stamped,
  a request passes if and only if its own trace is there whole, its one send ended with an unknown result,
  it served an application request, and no loaded send of that request is another invocation's. Two sending
  invocations of one application request never pass when both sends are loaded (`TwoSendsNeitherPasses`).
- **Never sent means never sent** (`Bridge.NeverSentStaysUnsent`), each request reaches at most one
  process at most once, one process lives at a time, and an answer is always the caller's own.
- **The blanker is exact** on every well-formed source, however deeply templates nest
  (`Lexer.BlanksExactly`).
- **Which requests a late kill can hit is known beforehand**: a request that has its process and no result
  yet can still end in `bridge_transport`, though nothing fails by itself and it never times out, if and only
  if it is not answered yet and some other request written to its process timed out or has no result yet
  (`BridgeKills.CanBeHitExactlyWhen`).
- **Every sequence of display edits** keeps one main screen, on (`Display.EditsKeepSound`); Join and
  Single give layouts that can be applied, and Clone exactly when the modes it will show agree.

## Findings

- **A cut observer stream is a FAIL, not BLOCKED.** With the remote's stream accepted, the loss of part of
  the observer's events is noticed if and only if nothing is left, what is left is not the beginning of
  its log, or it reports a loss itself (`EvidenceTheorems.ObserverLossBlocksExactlyWhen`). So a lost tail
  is not noticed, and for an observer that released a hold it is judged a demonstrated violation
  (`TailLossFails`); `HonestRun.LostReleaseTurnsPassIntoFail` has runs where that loss alone turns a PASS
  into "missing observer_release_sent". The input that gets there is an observer stopped between writing
  the release file and recording it (`src/control_tv/acceptance_observer.py:109-111`), or a failed write
  whose `.incomplete` marker could not be made either (`src/control_tv/trace_files.py:189-204`): with the
  marker, which this model leaves out, the whole file is refused
  (`scripts/acceptance_trace_evidence.py:72-73`). The remote's stream ends in a terminal event and is
  protected from this.
- **C7 vouches for what is loaded.** A second invocation of the same application request whose send event
  is not among the loaded ones leaves the first one's PASS (`SendEvidence.UnseenSecondSendPasses`); there
  are such runs for every command sent twice (`LostSend.LostSecondSendPasses`). That is a
  trace file that was not given to the checker, or again a failed write without its marker.
- **A timed-out request's kill may hit the next request.** The stop is ordered for the process the
  request was written to, and runs later; if that process meanwhile answered and was given to another
  request, that one ends in `bridge_transport` though nothing failed and it never timed out
  (`BridgeKills.LateKillHitsNextRequest`). A request with its process can be hit so if and only if it is not
  answered yet and not every other request written to that process was told something other than a timeout
  (`CanBeHitExactlyWhen`): that can be checked while it waits, and otherwise no continuation in which
  nothing fails by itself hits it.
- **A flagged repeat does not renew its id.** An id that was transmitted is flagged if and only if fewer than
  1024 ids entered the window since it last did (`Diagnostics.FlaggedExactlyWhen`), and a flagged repeat does
  not enter it; so the same id sent again two transmissions later can go unflagged
  (`RepeatOfRepeatCanBeMissed`).
- **Clone can give a layout that overlaps.** It names the chosen mode by its id and shows the first mode
  with that id. The layout can be applied if and only if, of any two manageable screens, those first modes
  have the same rounded size or one of them takes up nothing (`Display.CloneHasNoProblemExactlyWhen`); ids
  that are unique on each screen suffice (`CloneHasNoProblem`), and without them it can fail
  (`CloneNeedsUniqueIds`).
- **A WebRTC session's negotiation can outlast its deadline.** `negotiate` always gets its full 30 seconds,
  where every other setup phase gets what is left of the session. When an attempt begins, some script in
  which every wait respects its limit makes its negotiation outlast the deadline if and only if less than 60
  seconds are left (`WebRtcTask.NegotiatesLateExactlyWhen`; `NegotiationOverruns` is such a script). Every
  other wait with a limit is over in time, a handoff when it begins within ten seconds of its clamping; the
  engine's preparation has no limit (`WebRtc.SuperviseScript`).
- **An `ar` archive whose sizes lead back is read forever.** A member's size may be negative: at -60 and -61
  the reader's loop stays where it is, below it goes back (`Archive.AdvancesExactlyWhen`). Reading never ends
  if and only if the loop meets some offset twice, which it has done after twice the data's length of turns
  (`Archive.NeverEndsExactlyWhen`); a member of size -60 or -61 that is reached is enough (`StuckNeverEnds`,
  `MinusSixtyNeverEnds`).

## Model

| member | source | states |
|---|---|---|
| Confirmation.IdentityDecision | src/control_tv/service.py:151-195 | A read contradicts the captured identity exactly when it reports another usable content, session or queue item; a read accepted by the check shows the same media, and an identified same-media read is accepted. |
| Confirmation.IdentityCheck.Mismatch | src/control_tv/service.py:221-227 | The check's answer and its new memory are those of the specification: the first contradiction is kept for the whole attempt and is repeated for every later read. |
| Confirmation.Evaluate | src/control_tv/service.py:234-340 | Evaluating one read against a command's expectation matches exactly when the specification does, and updates the remembered contradiction as it does. |
| Confirmation.SeenIffContradicted | src/control_tv/service.py:198-227 | While an attempt is undecided it remembers a contradiction if and only if one of its evaluated reads reported another media. |
| Confirmation.MatchesExactlyWhen | src/control_tv/service.py:230-315 | An identity-bound expectation holds of a read if and only if nothing was contradicted before, the read shows the expected state of the same media (for stop also absent media), and it reports no other media. |
| Confirmation.ConfirmsExactlyWhen | src/control_tv/service.py:944-983 | An undecided attempt is confirmed by its next read if and only if that read is in time, on a connected device, shows the expected state of the captured media, and no evaluated read so far contradicted it. |
| Confirmation.NoConfirmationAfterContradiction | src/control_tv/service.py:198-227 | Whatever follows an evaluated read that contradicted the identity, the attempt is never confirmed (X-Y-X). |
| Confirmation.NeverConfirmedUnidentified | src/control_tv/service.py:144-168 | Without a media identified before the command, no sequence of reads confirms a playback command or a stop. |
| Confirmation.ReadsBounded | src/control_tv/service.py:894-1014 | At most ceil(budget / poll interval) reads are made. |
| Confirmation.TakeRead | src/control_tv/service.py:944-983 | Handling one more read leaves the check and the decision exactly where the specification of the whole sequence of reads puts them. |
| Confirmation.Verify | src/control_tv/service.py:894-1014 | The loop ends for every receiver; each read is given only the remaining budget and reads are a poll apart; the result is the one the reads decide, confirmed only by an in-time answer; if reads respect their timeout it returns by the deadline; with confirmation disabled nothing is read. |
| CommandTrace.TraceRecorder.Record | src/control_tv/command_trace.py:223-270 | One call stamps at most a loss marker and the event, with the next sequence number and the request's next index; the sink keeps the stamped events whose write succeeded; a failed write only marks the request; an inactive recorder does nothing. |
| Evidence.SortSorts | scripts/acceptance_trace_evidence.py:111-118 | Sorting a stream orders it by index and keeps every event exactly as often as it was loaded. |
| Evidence.StreamMembers | scripts/acceptance_trace_evidence.py:111-118 | A stream holds exactly the loaded events of its request and client. |
| Evidence.SortedIsLog | scripts/acceptance_trace_evidence.py:111-134 | Sorting the events of a contiguous log, loaded in any order, gives back that log. |
| Evidence.Streams | scripts/acceptance_trace_evidence.py:111-118 | Grouping then sorting in place yields one stream for each client with events, equal to the specified selection sorted by index. |
| Evidence.CompleteExactlyWhen | scripts/acceptance_trace_evidence.py:121-134 | A remote stream has no integrity problem if and only if it is contiguous, in growing sequence, reports no loss, and has its only final outcome as its last event. |
| Evidence.FirstIsThere | scripts/acceptance_trace_evidence.py:172-176 | The first event of a name is one of the stream with that name, and its absence is reported only when the stream has none. |
| RunShape.ActionKeepsShape | src/control_tv/service.py:518-680 | Every action of a command keeps its phases in order (capture, announce, send, answer, hold, reads, end) and only extends its trace; a playback command ends confirmed only on the captured session, or for stop on its absence. |
| RunShape.RecordKeepsLog | src/control_tv/command_trace.py:223-270 | One record call keeps the request's stamped log contiguous in index and growing in sequence whatever is lost, adds exactly the recorded event, and only loss markers before it. |
| RunShape.RecordKeepsOthers | src/control_tv/command_trace.py:223-270 | Recording one request leaves the log of every other request of the recorder as it was. |
| RunShape.ScriptEvents | src/control_tv/service.py:859-892 | A command's own trace holds no loss marker, and a final outcome only as its last event and only once the command finished. |
| RunInvariant.StepKeepsInv | src/control_tv/acceptance_observer.py:78-146 | Every step of a remote, a recorder, an observer, the hold directory or the TV keeps the run invariant. |
| RunInvariant.RunKeepsInv | src/control_tv/trace_files.py:232-306 | Every run keeps it: markers name the captured session of a command that is held, every release file holds a token drawn by an observer of that request after its proof, and each command's and observer's history is the timeline's. |
| EvidenceTheorems.ActingIsLog | scripts/acceptance_trace_evidence.py:137-152 | An accepted remote stream is the request's complete stamped log, event by event what the command did from preparation to outcome; nothing of it was lost. |
| EvidenceTheorems.FailClosed | scripts/acceptance_trace_evidence.py:121-152 | If any event a remote stamped for a request is not among the loaded ones, whatever lost it and in any pattern, both verdicts on the request are BLOCKED, whatever else is loaded. |
| EvidenceTheorems.FailedWriteBlocks | src/control_tv/command_trace.py:223-270 | A write that failed for any one event of a remote blocks both verdicts on its request. |
| EvidenceTheorems.EventOrigin | src/control_tv/service.py:836-892 | What the presence of an event in a command's trace proves about what the command did and on which session. |
| EvidenceTheorems.ReleaseProves | src/control_tv/acceptance_observer.py:78-112 | A hold that was released and then read proves the switch: the observer saw the captured session after the send returned and another one before the first read. |
| EvidenceTheorems.C6Soundness | scripts/acceptance_trace_evidence.py:189-243 | C6 soundness: for every run and every genuine evidence, a PASS implies that the command entered the transport once, bound to its captured session, and that the TV then reported that session and later another one to an observer, all after the send returned and before the first confirmation read, and that such a read happened. |
| EvidenceTheorems.CompleteIsActing | scripts/acceptance_trace_evidence.py:137-152 | The complete events of a finished command, loaded in any order, are accepted as its log. |
| EvidenceTheorems.C6ExactlyWhen | scripts/acceptance_trace_evidence.py:189-243 | On the complete evidence of a finished command and its observer, C6 passes if and only if that observer's proof released the hold, a confirmation status was then read, and the command was not confirmed by the session having ended. |
| EvidenceTheorems.ObserverLossBlocksExactlyWhen | scripts/acceptance_trace_evidence.py:194-199 | With the remote's stream accepted and any part of an observer's log loaded, C6 is BLOCKED if and only if nothing of the log is left, what is left is not its beginning, or it reports a loss. |
| EvidenceTheorems.TailLossFails | scripts/acceptance_trace_evidence.py:194-223 | Any tail lost from the log of an observer that released a hold, if it leaves something, gives a FAIL. |
| EvidenceTheorems.LostReleaseIsMissing | scripts/acceptance_trace_evidence.py:220-222 | Evidence that passes is, without the observer's last event, the demonstrated violation "missing observer_release_sent". |
| HonestRun.LostReleaseTurnsPassIntoFail | src/control_tv/acceptance_observer.py:78-112 | For every playback command, every two sessions the TV reports and every token there is a run with nothing lost whose two trace files pass C6; when the observer's last write fails, or it is stopped before it, the same files are the violation "missing observer_release_sent". |
| SendEvidence.TraceShape | src/control_tv/service.py:787-1014 | In every run each command's stamped trace has indexes 0..n-1 in growing sequence, at most one send, an answer only after the send, reads only after the answer, nothing after an outcome; a finished and recorded command ends in one outcome, one that an unexpected exception left has none. |
| SendEvidence.LosslessTrace | src/control_tv/command_trace.py:244-270 | When every write succeeds, the file of a command is, event by event, the prefix of what it did that was recorded, with the shape above. |
| SendEvidence.C7ExactlyWhen | scripts/acceptance_trace_evidence.py:256-304 | On any loaded events of which the request's own were stamped by its command, the request passes C7 if and only if its whole trace is loaded and ends with its outcome, its transport call ended ambiguously, it served an application request, and no loaded send of that request is another invocation's. |
| SendEvidence.C7OnOwnStream | scripts/acceptance_trace_evidence.py:256-304 | Once its own stream is completely loaded, and whatever else is, the first of these conditions holds and only the other three decide. |
| SendEvidence.C7OnAllEvidence | scripts/acceptance_trace_evidence.py:256-304 | On the complete evidence of all remotes of a run, the last condition becomes: no other invocation of that request recorded a send. |
| SendEvidence.UnseenSecondSendPasses | scripts/acceptance_trace_evidence.py:288-304 | In any run, another invocation that sent the same application request leaves the first one's PASS when its send is not among the loaded events. |
| LostSend.LostSecondSendPasses | scripts/acceptance_trace_evidence.py:288-304 | For every command, sent twice for one application request with the first result unknown, there is a run in which only the write of the second send fails, and the files of both invocations pass C7 for the first. |
| SendEvidence.TwoSendsNeitherPasses | scripts/acceptance_trace_evidence.py:288-304 | For any loaded events at all: when two invocations of one application request have a send among them, neither passes C7. |
| Bridge.OwnAnswer | src-tauri/src/bridge.rs:397-416 | In every reachable state the line a worker reads is the one answer its process gave to its own request; the id check never fails. |
| Bridge.StepKeepsInv | src-tauri/src/bridge.rs:582-671 | Every atomic step of a caller, its worker, its timeout, recovery or a process keeps the protocol's invariants. |
| Bridge.NeverSentStaysUnsent | src-tauri/src/bridge.rs:582-671 | A caller told `bridge_busy`, or `backend_unavailable` by this crate, has its request line written to no process in any continuation of any run. |
| Bridge.WrittenAtMostOnce | src-tauri/src/bridge.rs:462-466 | Every request is written at most once, to at most one process, whatever times out, dies or recovers. |
| Bridge.OkIsOwnReply | src-tauri/src/bridge.rs:364-417 | A caller that got a result or a relayed failure got what the one process its request was delivered to answered to it. |
| Bridge.AtMostOneLive | src-tauri/src/bridge.rs:488-515 | In every reachable state at most one process runs, and it is the slot's. |
| Bridge.ReplacedOnlyWhenDead | src-tauri/src/bridge.rs:499-515 | A step that starts a process finds every earlier one exited or killed. |
| Bridge.FreeMeansQuiet | src/control_tv/bridge.py:927-936 | Whenever the lock is free and not poisoned, everything written to the slot's process was answered and every answer read. |
| Bridge.TimedOutWorkerReturns | src-tauri/src/bridge.rs:656-671 | Once the kill ordered by a timed-out caller has run, its worker's read returns instead of blocking. |
| BridgeKills.OnlyTimeoutsBreakCalmRuns | src-tauri/src/bridge.rs:545-549 | When nothing fails by itself, a request ends in `bridge_transport` only if another request written to the same process timed out. |
| BridgeKills.CanBeHitExactlyWhen | src-tauri/src/bridge.rs:656-671 | At any moment of a run in which nothing failed by itself, for a request that has its process and no result yet: some continuation of that kind in which it does not time out ends it in `bridge_transport` if and only if it is not answered yet and some other request written to its process timed out or has no result yet. |
| BridgeKills.HitExactlyWhen | src-tauri/src/bridge.rs:545-549 | When nothing fails by itself, a claimed request that was told a result other than a timeout ends in `bridge_transport` if and only if it was never answered; then its process was stopped and another request written to it timed out. |
| BridgeKills.SettledProcessNeverHits | src-tauri/src/bridge.rs:656-671 | The safe half, with what it gives the caller: a request that has its process when every other request written to it was already told something other than a timeout never ends in `bridge_transport`, in any continuation in which nothing fails by itself. |
| BridgeKills.CalmStepKeepsBlame | src-tauri/src/bridge.rs:656-671 | Every step in which nothing fails by itself keeps: each ordered kill and each dead process has a timed-out request written to it, and each call hit by one was never answered. |
| BridgeKills.StepKeepsUnanswered | src/control_tv/bridge.py:927-936 | Every step keeps: a process has at most one line to answer, of a delivered request that no process has answered. |
| BridgeKills.LateKillHitsNextRequest | src-tauri/src/bridge.rs:656-671 | A concrete run, with nothing failing by itself, in which a request that never timed out ends in `bridge_transport` because an earlier request's kill came late. |
| Bridge.BridgeProcess.Terminate | src-tauri/src/bridge.rs:139-154 | The process is dead and marked; a second call changes nothing. |
| Bridge.BridgeSlot.Retire | src-tauri/src/bridge.rs:489-495 | The slot is unavailable and the process it had is dead. |
| Bridge.BridgeSlot.Recover | src-tauri/src/bridge.rs:499-515 | A running process stays untouched; otherwise it is killed before the launcher's result takes its place. |
| Bridge.RecoveryStepsAreRecover | src-tauri/src/bridge.rs:499-515 | The protocol's two recovery steps have the object's outcome, and leave no other process running. |
| Ui.RunSafety | ui/src/model.ts:252-443 | Over every event sequence at most one request is in flight and it is the last one sent, request ids never repeat, and a ready status is that of the selected TV. |
| Ui.SentOneByOne | ui/src/model.ts:244-260 | A request leaves only while none is in flight, and afterwards no earlier one is awaited. |
| Ui.StaleAnswerChangesNothing | ui/src/model.ts:416-443 | Once an id is spent, an answer carrying it, of any kind and content, leaves the window as it is, whatever happened meanwhile. |
| Ui.AnsweredIsSpent | ui/src/playback.ts:285-345 | The answer to a request spends its id. |
| Ui.SentSeekInRange | ui/src/playback.ts:199-283 | Every seek sent asks for a whole second within 0..floor(duration) of the reported media, on the TV whose status is shown, and not the position it already reports. |
| Ui.SentOrderIsOffered | ui/src/playback.ts:137-249 | Every other order sent is one the reported state offers; a volume is at most ten points above the reported one, and mute is the opposite of the reported one. |
| Ui.StatusComesFromAnswers | ui/src/model.ts:419-443 | A new ready status is always the content of the awaited answer, about the selected TV. |
| Display.SoundHasMain | ui/src/display.ts:467-479 | A sound layout has a screen on, and only an overlap can stand in the way of applying it. |
| Display.ChosenModeOffered | ui/src/display.ts:170-182 | A new size selects a mode of that size if and only if the screen offers one, at the old refresh rate whenever it is offered there. |
| Display.SetEnabledKeepsSound | ui/src/display.ts:219-249 | Turning any screen on or off keeps a screen on and exactly one main screen, which is on. |
| Display.EnablingCreatesNoOverlap | ui/src/display.ts:240-249 | Turning a screen on neither creates nor removes an overlap. |
| Display.NormalizeIsIdempotent | ui/src/display.ts:318-328 | Normalizing puts the corner of the screens that are on at 0,0, and doing it again changes nothing. |
| Display.NormalizeKeepsOverlap | ui/src/display.ts:318-347 | Normalizing neither creates nor removes an overlap. |
| Display.Join | ui/src/display.ts:363-379 | The loops of Join compute the specified layout. |
| Display.JoinKeepsOrder | ui/src/display.ts:363-379 | After Join any two manageable screens stand clear of each other at y = 0, in the order they had (x, then y, then the locale's order). |
| Display.JoinHasNoProblem | ui/src/display.ts:363-379 | From any sound layout Join gives one that can be applied. |
| Display.ComputeResolutions | ui/src/display.ts:138-149 | The loop with its seen set computes the specified sizes. |
| Display.ResolutionsExact | ui/src/display.ts:138-149 | The resolutions are exactly the sizes of the modes, each once, by falling area. |
| Display.CommonResolutionsExact | ui/src/display.ts:382-395 | Clone's sizes are exactly those every manageable screen offers, by falling area. |
| Display.Clone | ui/src/display.ts:399-420 | The loop of Clone computes the specified layout, or nothing when no size is common. |
| Display.CloneHasNoProblemExactlyWhen | ui/src/display.ts:399-420 | From any sound layout with a common size, Clone's layout can be applied if and only if, of any two manageable screens, the first modes carrying the chosen ids have the same rounded size or one takes up nothing; else it overlaps. |
| Display.CloneHasNoProblem | ui/src/display.ts:399-420 | With unique mode ids per screen, Clone gives a layout that can be applied: every manageable screen on, all showing the same area at 0,0. |
| Display.CloneNeedsUniqueIds | ui/src/display.ts:121-123 | A sound layout with two modes of one id for which Clone's layout overlaps. |
| Display.SingleHasNoProblem | ui/src/display.ts:423-440 | On a screen that offers modes Single gives a layout that can be applied, with that screen alone on, main, at 0,0. |
| Display.ArrangementsAreRecognised | ui/src/display.ts:349-360 | The layouts of Single, Clone (with two screens on) and Join (with two manageable screens of positive width) are recognised as what they are. |
| Display.Nearest | ui/src/display.ts:262-273 | The result is a nearest guide within reach, the first such, or none when none is in reach. |
| Display.Snap | ui/src/display.ts:277-306 | Each coordinate lands where an edge meets the nearest edge in reach of another screen that is on, or where it was dropped when none is in reach. |
| Display.EditsKeepSound | ui/src/display.ts:161-479 | Any sequence of edits keeps at least one screen on and exactly one main screen, which is on. |
| Lexer.TypescriptCodeOnly | scripts/dev.py:398-452 | The loop over the source computes the specified scan, turn by turn. |
| Lexer.KeepsOrBlanks | scripts/dev.py:398-452 | For every input each position keeps its character or becomes a space and line breaks are kept exactly; the length grows by one exactly when the text ends in a backslash the scanner meets inside a string or template. |
| Lexer.LineNumbersStay | scripts/dev.py:393-459 | A line number computed on the blanked text is the line number in the source. |
| Lexer.FoundWordIsInSource | scripts/dev.py:455-461 | A word found in the blanked text stands in the source at the same position, on the same line. |
| Lexer.BlanksExactly | scripts/dev.py:398-452 | Of every well-formed source (balanced braces, closed strings, comments and templates, nested to any depth) exactly the comments and the contents of strings and templates are blanked, and template expressions are kept as code. |
| WebRtc.ReconnectBudget.Claim | src-tauri/src/webrtc_commands.rs:35-41 | A claim is granted, numbered from 1, exactly while attempts are left. |
| WebRtc.Session.Remaining | src-tauri/src/webrtc_commands.rs:247-254 | A phase is given its limit or what is left of the session, whichever is less, and fails exactly when nothing is left. |
| WebRtc.Session.CreateReconnectAttempt | src-tauri/src/webrtc_commands.rs:256-375 | Setting up a replacement does what its specification says; it opens at most one transport, and one that is not handed over is closed or stopped before the attempt fails. |
| WebRtc.Session.ReleaseAfterFailure | src-tauri/src/webrtc_commands.rs:163-168 | The capture is released once and nothing reconnects any more. |
| WebRtc.Session.Supervise | src-tauri/src/webrtc_commands.rs:532-752 | The task always has a signaling server when it needs one and never reaches its unreachable branch; its whole outcome is that of the specification. |
| WebRtc.SuperviseScript | src-tauri/src/webrtc_commands.rs:532-752 | Over every script of outcomes: what the objects do is what the specification of the script says; at most two reconnections, at most one activation, one accept per attempt; every limited wait but a negotiation has a limit that ends by the session's deadline, a handoff when it begins within ten seconds of its clamping; and a task that ends by itself has released the capture exactly once, last, and reconnects no more. |
| WebRtcTask.NegotiatesLateExactlyWhen | src-tauri/src/webrtc_commands.rs:538-610 | With time left when an attempt begins, some script in which every wait respects its limit makes its negotiation outlast the deadline if and only if less than 60 seconds are left. |
| WebRtcTask.NegotiationOverruns | src-tauri/src/webrtc_commands.rs:600-610 | A script, in a session of one hour, whose waits respect their limits and whose negotiation ends after the deadline. |
| Closure.LinkedCrates | packaging/release_linux.py:99-130 | On any graph the result is exactly the crates reached from the root by linked edges through crates that are no proc-macros, each once, in the order of names and versions; it fails exactly when a reached crate or a linked dependency of one is not described. |
| Closure.RuntimePackages | packaging/android_python.py:143-170 | The result is exactly the set of packages reached from the project and its extras; it fails exactly when the project, an extra or a reached package is missing. |
| Diagnostics.DiagnosticCounts.Annotate | src-tauri/src/diagnostics.rs:90-118 | The counters, the queue and the set stay those of the whole history; an event is flagged exactly when its id is among the last 1024 that entered the window. |
| Diagnostics.WindowIsDistinct | src-tauri/src/diagnostics.rs:103-112 | The window never holds an id twice, nor more than 1024 ids. |
| Diagnostics.FlaggedWasTransmitted | src-tauri/src/diagnostics.rs:95-102 | A flagged event really was transmitted before. |
| Diagnostics.FlaggedExactlyWhen | src-tauri/src/diagnostics.rs:95-112 | A transmission is flagged if and only if its id entered the window before and fewer than 1024 ids entered it since it last did. |
| Diagnostics.TransmissionsAddUp | src-tauri/src/diagnostics.rs:93-112 | Every transmission is either an insertion or a flagged repeat. |
| Diagnostics.RepeatOfRepeatCanBeMissed | src-tauri/src/diagnostics.rs:95-112 | A history in which an id, flagged as a repeat, is sent again two transmissions later and not flagged. |
| Latency.PercentileInRange | scripts/acceptance_latency.py:68-78 | A percentile lies between the smallest and the largest sample. |
| Latency.PercentileIsMonotone | scripts/acceptance_latency.py:68-78 | A higher percentage never gives a lower value. |
| Latency.PercentileIgnoresOrder | scripts/acceptance_latency.py:68-78 | The order of the samples does not matter. |
| Latency.PercentileFiftyIsMedian | scripts/acceptance_latency.py:81-92 | The 50th percentile is the median. |
| Latency.EvaluateKeyStep | scripts/acceptance_latency.py:175-267 | The record is refused, FAIL, NOT RUN or PASS exactly by the protocol's rules, over all presses and the adopted criterion; a PASS means ten presses, of which each one sent moved the focus once and no other did. |
| Archive.ArMembers | scripts/acceptance_identity.py:73-95 | The loop returns what the source's turns, with slices of any bounds, lead to: the members with decoded names, the error of the turn that fails, or that the loop never ends. |
| Archive.AdvancesExactlyWhen | scripts/acceptance_identity.py:86-94 | A turn at a member whose size is a number and fits goes on if and only if the size is above -60, and stays at the member exactly for -60 and -61. |
| Archive.NeverEndsExactlyWhen | scripts/acceptance_identity.py:83-95 | The loop never ends if and only if it is at some offset twice, and if and only if it still runs after 2n + 1 turns on n bytes. |
| Archive.StaysForever | scripts/acceptance_identity.py:83-94 | At a member of size -60 or -61 the loop is at the same member after any number of turns. |
| Archive.StuckNeverEnds | scripts/acceptance_identity.py:83-95 | An archive whose reading reaches a member of size -60 or -61 is never read to its end. |
| Archive.MinusSixtyNeverEnds | scripts/acceptance_identity.py:83-94 | An archive of one header, with the size field -60, whose reading never ends. |
| Archive.SizeReadBack | scripts/acceptance_identity.py:86-88 | A printed decimal size field is read back as the length printed. |
| Archive.ReadsBackExactly | scripts/acceptance_identity.py:73-95 | Of every list of printable members whose names are distinct the reader returns exactly those, with their contents, whatever their parity. |
| Archive.CutMemberIsRefused | scripts/acceptance_identity.py:91-92 | A member the data ends in is reported as truncated, never returned short. |

## Left out

- Identifiers: request ids, tokens, application request ids and device ids are opaque values compared for equality; their formats, and that fresh ones never repeat, are assumptions of the steps that draw them.
- Files: permissions, symbolic links, torn lines, the `.incomplete` marker and the parsing of traces and markers; the hold directory is a pair of maps with atomic replace and delete.
- The clocks of a hold, an observer and the caller of a bridge request: their timeouts may fire at any moment.
- The recorder's lock: one `record` call is one step, so two threads' calls on one recorder never interleave inside a call.
- Argument checks of the commands, the device table (discovery, remembering, reachability) and the detail texts of results.
- `TvControl` adapters, the remote channel, sound wording, remote panel rules beyond "one request on it is in flight", and `ServiceHealth`.
- Bridge.OwnAnswer: the peer answers one line per request line with the request's id, as `src/control_tv/bridge.py:927-936` does; stray output of the process is not modelled.
- The in-process bridge channel of Android: it has no process to stop or recover.
- Lexer.BlanksExactly: sources with unbalanced top-level braces, or with a string or block comment that the end of the file leaves open, are covered only by `Lexer.KeepsOrBlanks`; the word pattern itself is a regular expression and not modelled.
- Display.Snap: coordinates and scales are real numbers, `Math.round` rounds halves up, and the locale's comparison of names is an arbitrary rank.
- WebRtc.SuperviseScript: the engine, the transport and the bridge calls are outcomes of the script with their times, the engine's preparation among them; the waits for the state's lock are left out, as its other holders only read or abort this task first; the texts of failures and the state the window reads, apart from `reconnecting`, are left out.
- Closure.LinkedCrates: the order of names and versions is an arbitrary place of each crate; the parser's type errors and the normalisation of package names are left out.
- Diagnostics.DiagnosticCounts.Annotate: event ids are numbers, and the writer thread and its bounded channel are not modelled.
- Latency.EvaluateKeyStep: values that are not finite numbers, and the wording of the reasons, are left out.
- Archive.ArMembers: underscores in a size field are not read as digits; a loop that never ends is told as an outcome, once its counted turns show it.
- The settling timers of the volume control, the reports, logos, packaging builds and every user-facing text: one branch each, and no property across operations.
