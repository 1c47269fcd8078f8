/** How a sent command is confirmed: the identity of the controlled media, the state each command
    expects, and the bounded loop of status reads that decides CONFIRMED or UNCONFIRMED. */
module Confirmation {
  import opened Domain

  // ---------------------------------------------------------------- media identity

  datatype MediaIdentity = MediaIdentity(contentId: string, sessionId: Option<nat>, itemId: Option<int>)

  /** An identity other than the one captured, explicitly reported by a read. */
  datatype Contradiction =
    | OtherContent(content: string)
    | OtherSession(session: nat)
    | OtherItem(item: int)

  datatype Mismatch =
    | NotIdentifiedBefore
    | ContentNotShown
    | SessionNotShown
    | ItemNotShown
    | Contradicted(why: Contradiction)

  // The characters `str.strip` removes.
  predicate IsSpace(c: char) {
    var n := c as int;
    0x09 <= n <= 0x0D || 0x1C <= n <= 0x20 || n == 0x85 || n == 0xA0 || n == 0x1680
    || 0x2000 <= n <= 0x200A || n in {0x2028, 0x2029, 0x202F, 0x205F, 0x3000}
  }

  predicate Blank(text: string) {
    forall c :: c in text ==> IsSpace(c)
  }

  function UsableContent(content: Option<string>): Option<string> {
    if content.Some? && !Blank(content.value) then content else None
  }

  function IdentityOf(media: MediaStatus): Option<MediaIdentity> {
    match UsableContent(media.contentId)
    case None => None
    case Some(content) => Some(MediaIdentity(content, media.sessionId, media.itemId))
  }

  function ContradictionOf(expected: MediaIdentity, media: MediaStatus): Option<Contradiction> {
    var content := UsableContent(media.contentId);
    if content.Some? && content.value != expected.contentId then
      Some(OtherContent(content.value))
    else if expected.sessionId.Some? && media.sessionId.Some? && media.sessionId != expected.sessionId then
      Some(OtherSession(media.sessionId.value))
    else if expected.itemId.Some? && media.itemId.Some? && media.itemId != expected.itemId then
      Some(OtherItem(media.itemId.value))
    else
      None
  }

  function MismatchOf(expected: Option<MediaIdentity>, media: MediaStatus): Option<Mismatch> {
    if expected.None? then Some(NotIdentifiedBefore)
    else if media.contentId != Some(expected.value.contentId) then Some(ContentNotShown)
    else if expected.value.sessionId.Some? && media.sessionId.None? then Some(SessionNotShown)
    else if expected.value.itemId.Some? && media.itemId.None? then Some(ItemNotShown)
    else None
  }

  /** The contradiction an attempt remembers after one more read of `media`. */
  function Remember(
    expected: Option<MediaIdentity>, seen: Option<Contradiction>, media: MediaStatus
  ): Option<Contradiction> {
    if seen.None? && expected.Some? then ContradictionOf(expected.value, media) else seen
  }

  function MismatchAfter(
    expected: Option<MediaIdentity>, seen: Option<Contradiction>, media: MediaStatus
  ): Option<Mismatch> {
    var now := Remember(expected, seen, media);
    if now.Some? then Some(Contradicted(now.value)) else MismatchOf(expected, media)
  }

  /** Checks the reads of one confirmation attempt; the first contradiction is kept. */
  class IdentityCheck {
    const expected: Option<MediaIdentity>
    var contradiction: Option<Contradiction>

    constructor (expected: Option<MediaIdentity>)
      ensures this.expected == expected && contradiction == None
    {
      this.expected := expected;
      contradiction := None;
    }

    method Mismatch(media: MediaStatus) returns (why: Option<Mismatch>)
      modifies this
      ensures contradiction == Remember(expected, old(contradiction), media)
      ensures why == MismatchAfter(expected, old(contradiction), media)
      ensures old(contradiction).Some? ==> contradiction == old(contradiction) && why.Some?
    {
      if contradiction == None && expected.Some? {
        contradiction := ContradictionOf(expected.value, media);
      }
      if contradiction.Some? {
        return Some(Contradicted(contradiction.value));
      }
      why := MismatchOf(expected, media);
    }
  }

  /** The media a read shows is the media that was identified before the command. */
  predicate ShowsSameMedia(identity: MediaIdentity, media: MediaStatus) {
    && media.contentId == Some(identity.contentId)
    && (identity.sessionId.Some? ==> media.sessionId == identity.sessionId)
    && (identity.itemId.Some? ==> media.itemId == identity.itemId)
  }

  /** A read reports a usable content id, a session or a queue item other than the identified one. */
  predicate ReportsOther(identity: MediaIdentity, media: MediaStatus) {
    || (media.contentId.Some? && !Blank(media.contentId.value) && media.contentId.value != identity.contentId)
    || (identity.sessionId.Some? && media.sessionId.Some? && media.sessionId != identity.sessionId)
    || (identity.itemId.Some? && media.itemId.Some? && media.itemId != identity.itemId)
  }

  lemma IdentityDecision(identity: MediaIdentity, media: MediaStatus)
    ensures ContradictionOf(identity, media).Some? <==> ReportsOther(identity, media)
    ensures MismatchAfter(Some(identity), None, media) == None ==> ShowsSameMedia(identity, media)
    ensures (!Blank(identity.contentId) && ShowsSameMedia(identity, media)) ==>
              MismatchAfter(Some(identity), None, media) == None
  {
  }

  // ---------------------------------------------------------------- what a command expects

  datatype Expectation =
    | PlaybackIn(identity: Option<MediaIdentity>, state: PlaybackState)
    | Stopped(identity: Option<MediaIdentity>)
    | PositionNear(identity: Option<MediaIdentity>, target: real, tolerance: real)
    | Loaded(url: string)
    | AppEnded(appSession: string)
    | VolumeNear(level: real, tolerance: real)
    | MutedIs(muted: bool)
  {
    predicate HasIdentity() {
      PlaybackIn? || Stopped? || PositionNear?
    }
  }

  function ExpectedIdentity(e: Expectation): Option<MediaIdentity> {
    if e.HasIdentity() then e.identity else None
  }

  function Near(a: real, b: real, tolerance: real): bool {
    b - tolerance <= a <= b + tolerance
  }

  /** What the attempt remembers after evaluating `status`. */
  function SeenAfter(e: Expectation, seen: Option<Contradiction>, status: DeviceStatus): Option<Contradiction> {
    if e.HasIdentity() && status.media.Some? then Remember(e.identity, seen, status.media.value) else seen
  }

  /** Whether `status` shows the expected state, given what earlier reads contradicted. */
  predicate Matches(e: Expectation, seen: Option<Contradiction>, status: DeviceStatus) {
    match e
    case PlaybackIn(identity, state) =>
      status.media.Some? && MismatchAfter(identity, seen, status.media.value).None?
      && status.media.value.playback == state
    case Stopped(identity) =>
      if status.media.Some? then
        MismatchAfter(identity, seen, status.media.value).None? && status.media.value.playback == Idle
      else
        identity.Some? && seen.None?
    case PositionNear(identity, target, tolerance) =>
      status.media.Some? && MismatchAfter(identity, seen, status.media.value).None?
      && status.media.value.position.Some?
      && Near(status.media.value.position.value, target, tolerance)
    case Loaded(url) =>
      status.media.Some? && status.media.value.contentId == Some(url)
      && status.media.value.playback in {Playing, Buffering, Paused}
    case AppEnded(appSession) =>
      status.receiver.None? || status.receiver.value.appSessionId != Some(appSession)
    case VolumeNear(level, tolerance) =>
      status.receiver.Some? && status.receiver.value.volume.Some?
      && Near(status.receiver.value.volume.value, level, tolerance)
    case MutedIs(muted) =>
      status.receiver.Some? && status.receiver.value.muted == Some(muted)
  }

  /** Evaluates one connected read against `e`, updating the attempt's identity check in place. */
  method Evaluate(e: Expectation, check: IdentityCheck, status: DeviceStatus) returns (matched: bool)
    requires e.HasIdentity() ==> check.expected == e.identity
    modifies check
    ensures matched == Matches(e, old(check.contradiction), status)
    ensures check.contradiction == SeenAfter(e, old(check.contradiction), status)
  {
    if !e.HasIdentity() {
      return Matches(e, None, status);
    }
    if status.media.None? {
      return e.Stopped? && e.identity.Some? && check.contradiction == None;
    }
    var media := status.media.value;
    var why := check.Mismatch(media);
    if why.Some? {
      return false;
    }
    match e
    case PlaybackIn(_, state) => matched := media.playback == state;
    case Stopped(_) => matched := media.playback == Idle;
    case PositionNear(_, target, tolerance) =>
      matched := media.position.Some? && Near(media.position.value, target, tolerance);
  }

  // ---------------------------------------------------------------- one attempt, read by read

  datatype ReadOutcome =
    | Answered(status: DeviceStatus)
    | ReadFailed(code: ErrorCode)
    | ReadEscaped  // an exception that is not a control error

  /** What one iteration of the loop decides. */
  datatype Decision = Continue | Confirm | GiveUp | Raise

  datatype Attempt = Attempt(seen: Option<Contradiction>, decision: Decision)

  const FRESH := Attempt(None, Continue)

  /** One read of the attempt; `late` says that it ended at or after the deadline. */
  function AfterRead(e: Expectation, seen: Option<Contradiction>, outcome: ReadOutcome, late: bool): Attempt {
    match outcome
    case ReadEscaped => Attempt(seen, Raise)
    case ReadFailed(_) => Attempt(seen, Continue)
    case Answered(status) =>
      if late then Attempt(seen, GiveUp)
      else if status.connection != Connected then Attempt(seen, Continue)
      else Attempt(SeenAfter(e, seen, status), if Matches(e, seen, status) then Confirm else Continue)
  }

  datatype TimedRead = TimedRead(outcome: ReadOutcome, late: bool)

  /** The attempt after `made`, the first of which it makes first; nothing is read after a decision. */
  function AfterReads(e: Expectation, made: seq<TimedRead>): Attempt {
    if made == [] then FRESH
    else
      var before := AfterReads(e, made[..|made| - 1]);
      var last := made[|made| - 1];
      if before.decision != Continue then before else AfterRead(e, before.seen, last.outcome, last.late)
  }

  /** Read `k` was evaluated: it answered in time from a connected device. */
  predicate Evaluated(made: seq<TimedRead>, k: nat)
    requires k < |made|
  {
    made[k].outcome.Answered? && !made[k].late && made[k].outcome.status.connection == Connected
  }

  predicate ContradictedAt(identity: MediaIdentity, made: seq<TimedRead>, k: nat)
    requires k < |made|
  {
    Evaluated(made, k) && made[k].outcome.status.media.Some?
    && ReportsOther(identity, made[k].outcome.status.media.value)
  }

  /** One of the first `n` reads contradicted the identity. */
  predicate ContradictedUpTo(identity: MediaIdentity, made: seq<TimedRead>, n: nat)
    requires n <= |made|
  {
    exists k :: 0 <= k < n && ContradictedAt(identity, made, k)
  }

  lemma ContradictedInPrefix(identity: MediaIdentity, made: seq<TimedRead>, n: nat)
    requires n < |made|
    ensures ContradictedUpTo(identity, made[..n], n) <==> ContradictedUpTo(identity, made, n)
    ensures ContradictedUpTo(identity, made, n + 1) <==>
              ContradictedUpTo(identity, made, n) || ContradictedAt(identity, made, n)
  {
    assert forall k :: 0 <= k < n ==> ContradictedAt(identity, made[..n], k) == ContradictedAt(identity, made, k);
  }

  /** What an identity-bound command needs of read `k` alone, stated without the check's memory. */
  predicate ShowsExpected(e: Expectation, identity: MediaIdentity, status: DeviceStatus)
    requires e.HasIdentity()
  {
    if status.media.None? then e.Stopped?
    else
      var media := status.media.value;
      ShowsSameMedia(identity, media)
      && match e {
        case PlaybackIn(_, state) => media.playback == state
        case Stopped(_) => media.playback == Idle
        case PositionNear(_, target, tolerance) =>
          media.position.Some? && Near(media.position.value, target, tolerance)
      }
  }

  /** The attempt remembers a contradiction exactly when an evaluated read reported one. */
  lemma {:induction false} SeenIffContradicted(e: Expectation, identity: MediaIdentity, made: seq<TimedRead>)
    requires e.HasIdentity() && e.identity == Some(identity)
    requires AfterReads(e, made).decision == Continue
    ensures AfterReads(e, made).seen.Some? <==> ContradictedUpTo(identity, made, |made|)
  {
    if made != [] {
      var n := |made| - 1;
      var front := made[..n];
      SeenIffContradicted(e, identity, front);
      ContradictedInPrefix(identity, made, n);
      if Evaluated(made, n) && made[n].outcome.status.media.Some? {
        IdentityDecision(identity, made[n].outcome.status.media.value);
      }
    }
  }

  lemma MatchesExactlyWhen(e: Expectation, identity: MediaIdentity, seen: Option<Contradiction>, status: DeviceStatus)
    requires e.HasIdentity() && e.identity == Some(identity) && !Blank(identity.contentId)
    ensures Matches(e, seen, status) <==>
              && seen.None?
              && ShowsExpected(e, identity, status)
              && (status.media.Some? ==> !ReportsOther(identity, status.media.value))
  {
    if status.media.Some? {
      IdentityDecision(identity, status.media.value);
    }
  }

  /** Sticky identity, both ways: while an attempt is undecided, its next read confirms a command
      bound to an identified media exactly when that read is in time, connected and shows the
      expected state of the same media, and no evaluated read so far reported another one. */
  lemma ConfirmsExactlyWhen(e: Expectation, identity: MediaIdentity, made: seq<TimedRead>)
    requires e.HasIdentity() && e.identity == Some(identity) && !Blank(identity.contentId)
    requires made != [] && AfterReads(e, made[..|made| - 1]).decision == Continue
    ensures AfterReads(e, made).decision == Confirm <==>
              && Evaluated(made, |made| - 1)
              && ShowsExpected(e, identity, made[|made| - 1].outcome.status)
              && !ContradictedUpTo(identity, made, |made|)
  {
    var n := |made| - 1;
    var front := made[..n];
    var before := AfterReads(e, front);
    SeenIffContradicted(e, identity, front);
    ContradictedInPrefix(identity, made, n);
    if Evaluated(made, n) {
      var status := made[n].outcome.status;
      MatchesExactlyWhen(e, identity, before.seen, status);
    }
  }

  /** A confirmation is never reached once an evaluated read reported another media (X-Y-X),
      whatever comes before or after it. */
  lemma {:induction false} NoConfirmationAfterContradiction(
    e: Expectation, identity: MediaIdentity, made: seq<TimedRead>, k: nat)
    requires e.HasIdentity() && e.identity == Some(identity)
    requires k < |made| && ContradictedAt(identity, made, k)
    requires AfterReads(e, made[..k]).decision == Continue
    ensures AfterReads(e, made).decision != Confirm
  {
    var n := |made| - 1;
    var front := made[..n];
    if k < n {
      assert front[..k] == made[..k];
      assert ContradictedAt(identity, front, k);
      NoConfirmationAfterContradiction(e, identity, front, k);
      if AfterReads(e, front).decision == Continue {
        SeenIffContradicted(e, identity, front);
      }
    } else {
      assert made[..k] == front;
      IdentityDecision(identity, made[n].outcome.status.media.value);
    }
  }

  /** Without a media identified before it, no playback command is ever confirmed. */
  lemma {:induction false} NeverConfirmedUnidentified(e: Expectation, made: seq<TimedRead>)
    requires e.HasIdentity() && e.identity == None
    ensures AfterReads(e, made).decision != Confirm
  {
    if made != [] {
      NeverConfirmedUnidentified(e, made[..|made| - 1]);
    }
  }

  // ---------------------------------------------------------------- the bounded loop

  /** How the TV answers: the outcome of the k-th read, given the timeout it was allowed, and how
      long it took. */
  datatype Answer = Answer(outcome: ReadOutcome, elapsed: real)
  type Receiver = (nat, real) -> Answer

  /** One read as it happened: when it began, the timeout it was given, how it ended. */
  datatype Read = Read(at: real, timeout: real, outcome: ReadOutcome, end: real)

  datatype Result =
    | NotChecked
    | Confirmed(observed: DeviceStatus)
    | Unconfirmed(last: Option<DeviceStatus>, error: Option<ErrorCode>)
    | Raised

  function Timed(log: seq<Read>, deadline: real): seq<TimedRead> {
    seq(|log|, i requires 0 <= i < |log| => TimedRead(log[i].outcome, log[i].end >= deadline))
  }

  /** Every read begins before the deadline, is given exactly what remains of the budget, and is
      followed, when another read follows it, by at least one poll interval. */
  predicate WithinBudget(log: seq<Read>, start: real, deadline: real, poll: real) {
    && (forall i :: 0 <= i < |log| ==> start <= log[i].at < deadline && log[i].at <= log[i].end && log[i].timeout == deadline - log[i].at)
    && (forall i, j :: 0 <= i < j < |log| ==> log[i].end + poll <= log[j].at)
  }

  function LastStatus(log: seq<Read>): Option<DeviceStatus> {
    if log == [] then None
    else if log[|log| - 1].outcome.Answered? then Some(log[|log| - 1].outcome.status)
    else LastStatus(log[..|log| - 1])
  }

  function LastError(log: seq<Read>): Option<ErrorCode> {
    if log != [] && log[|log| - 1].outcome.ReadFailed? then Some(log[|log| - 1].outcome.code) else None
  }

  /** ceil(x) */
  function Ceiling(x: real): int {
    -((-x).Floor)
  }

  lemma TimesAtMost(a: real, b: real, poll: real)
    requires poll > 0.0
    ensures a <= b ==> a * poll <= b * poll
    ensures a < b ==> a * poll < b * poll
  {
  }

  lemma BelowCeiling(n: int, budget: real, poll: real)
    requires poll > 0.0
    requires n as real * poll < budget
    ensures n + 1 <= Ceiling(budget / poll)
  {
    var q := budget / poll;
    assert q * poll == budget;
    TimesAtMost(q, n as real, poll);
  }

  lemma {:induction false} LastReadNotBefore(log: seq<Read>, start: real, deadline: real, poll: real)
    requires poll > 0.0 && log != []
    requires WithinBudget(log, start, deadline, poll)
    ensures start + (|log| - 1) as real * poll <= log[|log| - 1].at
  {
    if |log| > 1 {
      var front := log[..|log| - 1];
      LastReadNotBefore(front, start, deadline, poll);
      assert (|log| - 1) as real * poll == (|log| - 2) as real * poll + poll;
    }
  }

  /** At most ceil(budget / poll) reads fit in the budget. */
  lemma ReadsBounded(log: seq<Read>, start: real, deadline: real, poll: real)
    requires poll > 0.0 && log != []
    requires WithinBudget(log, start, deadline, poll)
    ensures |log| <= Ceiling((deadline - start) / poll)
  {
    LastReadNotBefore(log, start, deadline, poll);
    BelowCeiling(|log| - 1, deadline - start, poll);
  }

  lemma LoggedOneMore(log: seq<Read>, read: Read, start: real, deadline: real, poll: real, tv: Receiver)
    requires poll > 0.0 && WithinBudget(log, start, deadline, poll) && FromReceiver(log, tv)
    requires start <= read.at < deadline && read.at <= read.end && read.timeout == deadline - read.at
    requires log != [] ==> log[|log| - 1].end + poll <= read.at
    requires Answer(read.outcome, read.end - read.at) == tv(|log|, read.timeout)
    ensures WithinBudget(log + [read], start, deadline, poll) && FromReceiver(log + [read], tv)
  {
  }

  // So many polls cover what remains of the budget: the loop's measure.
  predicate Covers(left: nat, remaining: real, poll: real) { remaining <= left as real * poll }

  lemma PollsLeft(remaining: real, poll: real) returns (left: nat)
    requires poll > 0.0
    ensures Covers(left, remaining, poll)
  {
    if remaining <= 0.0 {
      left := 0;
    } else {
      var q := remaining / poll;
      assert q * poll == remaining;
      assert q >= 0.0;
      left := q.Floor + 1;
      TimesAtMost(q, left as real, poll);
    }
  }

  lemma PollTaken(left: nat, remaining: real, after: real, poll: real)
    requires poll > 0.0 && 0.0 < remaining && Covers(left, remaining, poll)
    requires after <= 0.0 || after <= remaining - poll
    ensures left >= 1 && Covers(left - 1, after, poll)
  {
    assert (left - 1) as real * poll == left as real * poll - poll;
    if left > 1 {
      TimesAtMost(0.0, (left - 1) as real, poll);
    }
  }

  lemma AfterOneMore(e: Expectation, made: seq<TimedRead>, read: TimedRead)
    ensures AfterReads(e, made + [read]) ==
              if AfterReads(e, made).decision != Continue then AfterReads(e, made)
              else AfterRead(e, AfterReads(e, made).seen, read.outcome, read.late)
  {
    assert (made + [read])[..|made|] == made;
  }

  /** One read of the loop, updating the attempt's identity check in place. */
  method TakeRead(
    e: Expectation, check: IdentityCheck, ghost made: seq<TimedRead>, outcome: ReadOutcome, late: bool)
    returns (decision: Decision)
    requires e.HasIdentity() ==> check.expected == e.identity
    requires AfterReads(e, made) == Attempt(check.contradiction, Continue)
    modifies check
    ensures AfterReads(e, made + [TimedRead(outcome, late)]) == Attempt(check.contradiction, decision)
    ensures decision == Confirm ==> outcome.Answered? && !late
    ensures decision == Raise <==> outcome.ReadEscaped?
    ensures decision == GiveUp <==> outcome.Answered? && late
  {
    AfterOneMore(e, made, TimedRead(outcome, late));
    match outcome
    case ReadEscaped => decision := Raise;
    case ReadFailed(_) => decision := Continue;
    case Answered(status) =>
      if late {
        decision := GiveUp;
      } else if status.connection != Connected {
        decision := Continue;
      } else {
        var matched := Evaluate(e, check, status);
        decision := if matched then Confirm else Continue;
      }
  }

  lemma TimedOneMore(log: seq<Read>, read: Read, deadline: real)
    ensures Timed(log + [read], deadline) == Timed(log, deadline) + [TimedRead(read.outcome, read.end >= deadline)]
  {
  }

  lemma LastOneMore(log: seq<Read>, read: Read)
    ensures LastStatus(log + [read]) ==
              if read.outcome.Answered? then Some(read.outcome.status) else LastStatus(log)
    ensures LastError(log + [read]) ==
              if read.outcome.ReadFailed? then Some(read.outcome.code) else None
  {
    assert (log + [read])[..|log|] == log;
  }

  /** The log holds what the receiver answered, in order. */
  predicate FromReceiver(log: seq<Read>, tv: Receiver) {
    forall k :: 0 <= k < |log| ==>
      && log[k].outcome == tv(k, log[k].timeout).outcome
      && log[k].end == log[k].at + tv(k, log[k].timeout).elapsed
  }

  /** The receiver keeps to the timeout it is given (the transport's contract for a status read). */
  ghost predicate KeepsTimeout(tv: Receiver) {
    forall k, t :: t > 0.0 ==> tv(k, t).elapsed <= t
  }

  /** What `Verify` promises for a read log: the result is the decision of the attempt over it. */
  predicate Decided(e: Expectation, log: seq<Read>, deadline: real, now: real, result: Result) {
    match AfterReads(e, Timed(log, deadline)).decision
    case Confirm =>
      && log != [] && log[|log| - 1].outcome.Answered? && log[|log| - 1].end < deadline
      && result == Confirmed(log[|log| - 1].outcome.status)
    case Raise => result == Raised
    case _ => result == Unconfirmed(LastStatus(log), LastError(log)) && now >= deadline
  }

  /** An undecided attempt between two turns of the loop: every read so far was in the budget, and the
      next one, if there is time for it, is a poll later. */
  ghost predicate Polling(
    e: Expectation, log: seq<Read>, start: real, deadline: real, poll: real, tv: Receiver,
    seen: Option<Contradiction>, now: real)
  {
    && start <= now && (KeepsTimeout(tv) && start <= deadline ==> now <= deadline)
    && WithinBudget(log, start, deadline, poll) && FromReceiver(log, tv)
    && (log != [] && now < deadline ==> log[|log| - 1].end + poll <= now)
    && AfterReads(e, Timed(log, deadline)) == Attempt(seen, Continue)
  }

  lemma NothingRead(e: Expectation, start: real, deadline: real, poll: real, tv: Receiver)
    ensures Polling(e, [], start, deadline, poll, tv, None, start)
    ensures LastStatus([]) == None && LastError([]) == None
  {
  }

  /** One turn up to its decision: a read that is given what remains of the budget, then judged. */
  method ReadOnce(
    e: Expectation, check: IdentityCheck, log: seq<Read>, ghost start: real, deadline: real, ghost poll: real,
    tv: Receiver, now: real)
    returns (read: Read, decision: Decision)
    requires poll > 0.0 && now < deadline && tv(|log|, deadline - now).elapsed >= 0.0
    requires e.HasIdentity() ==> check.expected == e.identity
    requires Polling(e, log, start, deadline, poll, tv, check.contradiction, now)
    modifies check
    ensures start <= now <= read.end && (KeepsTimeout(tv) ==> read.end <= deadline)
    ensures WithinBudget(log + [read], start, deadline, poll) && FromReceiver(log + [read], tv)
    ensures AfterReads(e, Timed(log + [read], deadline)) == Attempt(check.contradiction, decision)
    ensures decision == Confirm ==> read.outcome.Answered? && read.end < deadline
    ensures decision == Raise <==> read.outcome.ReadEscaped?
    ensures decision == GiveUp <==> read.outcome.Answered? && read.end >= deadline
  {
    hide AfterReads, AfterRead, WithinBudget, FromReceiver, Timed;
    var remaining := deadline - now;
    var answer := tv(|log|, remaining);
    read := Read(now, remaining, answer.outcome, now + answer.elapsed);
    LoggedOneMore(log, read, start, deadline, poll, tv);
    TimedOneMore(log, read, deadline);
    decision := TakeRead(e, check, Timed(log, deadline), answer.outcome, read.end >= deadline);
  }

  // After an undecided read and the pause that follows it.
  lemma PollingOn(
    e: Expectation, log: seq<Read>, read: Read, start: real, deadline: real, poll: real, tv: Receiver,
    seen: Option<Contradiction>, now: real)
    requires start <= read.end && WithinBudget(log + [read], start, deadline, poll) && FromReceiver(log + [read], tv)
    requires AfterReads(e, Timed(log + [read], deadline)) == Attempt(seen, Continue) && poll > 0.0
    requires if read.end < deadline then now == (if poll < deadline - read.end then read.end + poll else deadline)
             else now == read.end
    requires KeepsTimeout(tv) ==> read.end <= deadline
    ensures Polling(e, log + [read], start, deadline, poll, tv, seen, now)
  {
    hide AfterReads, WithinBudget, FromReceiver, Timed, KeepsTimeout;
  }

  /** What `_verify` returns, the result, the reads and the time, as its documentation promises. */
  ghost predicate Promised(
    e: Expectation, log: seq<Read>, start: real, deadline: real, poll: real, tv: Receiver, now: real, result: Result)
  {
    && WithinBudget(log, start, deadline, poll) && FromReceiver(log, tv) && Decided(e, log, deadline, now, result)
    && (KeepsTimeout(tv) && start <= deadline ==> now <= deadline)
  }

  // The budget is spent between two turns.
  lemma BudgetIsSpent(
    e: Expectation, log: seq<Read>, start: real, deadline: real, poll: real, tv: Receiver,
    seen: Option<Contradiction>, now: real)
    requires Polling(e, log, start, deadline, poll, tv, seen, now) && now >= deadline
    ensures Promised(e, log, start, deadline, poll, tv, now, Unconfirmed(LastStatus(log), LastError(log)))
  {
    hide AfterReads, WithinBudget, FromReceiver, Timed, LastStatus, LastError, KeepsTimeout;
  }

  // A read decides: confirmed, raised, or too late.
  lemma ReadDecides(
    e: Expectation, log: seq<Read>, read: Read, start: real, deadline: real, poll: real, tv: Receiver,
    seen: Option<Contradiction>, decision: Decision)
    requires WithinBudget(log + [read], start, deadline, poll) && FromReceiver(log + [read], tv)
    requires AfterReads(e, Timed(log + [read], deadline)) == Attempt(seen, decision)
    requires decision == Confirm ==> read.outcome.Answered? && read.end < deadline
    requires decision == GiveUp ==> read.end >= deadline
    requires KeepsTimeout(tv) ==> read.end <= deadline
    ensures decision == Raise ==> Promised(e, log + [read], start, deadline, poll, tv, read.end, Raised)
    ensures decision == Confirm ==>
              read.outcome.Answered? && Promised(e, log + [read], start, deadline, poll, tv, read.end, Confirmed(read.outcome.status))
    ensures decision == GiveUp ==>
              Promised(e, log + [read], start, deadline, poll, tv, read.end, Unconfirmed(LastStatus(log + [read]), LastError(log + [read])))
  {
    hide AfterReads, WithinBudget, FromReceiver, Timed, LastStatus, LastError, KeepsTimeout;
  }

  /** `_verify`: reads the status until `e` holds or the budget is spent. `log` is every read made;
      `now` is when it returns. */
  method Verify(
    e: Expectation, confirmTimeout: Option<real>, deadlineGiven: Option<real>,
    poll: real, start: real, tv: Receiver)
    returns (result: Result, log: seq<Read>, now: real)
    requires poll > 0.0
    requires forall k, t :: tv(k, t).elapsed >= 0.0
    ensures confirmTimeout.None? ==> result == NotChecked && log == []
    ensures confirmTimeout.Some? ==>
              var deadline := if deadlineGiven.Some? then deadlineGiven.value else start + confirmTimeout.value;
              && WithinBudget(log, start, deadline, poll)
              && FromReceiver(log, tv)
              && Decided(e, log, deadline, now, result)
              && (KeepsTimeout(tv) && start <= deadline ==> now <= deadline)
  {
    hide Decided, WithinBudget, FromReceiver, KeepsTimeout;
    if confirmTimeout.None? {
      return NotChecked, [], start;
    }
    var deadline := if deadlineGiven.Some? then deadlineGiven.value else start + confirmTimeout.value;
    result, log, now := Poll(e, deadline, poll, start, tv);
  }

  /** The loop of `_verify`. */
  method Poll(e: Expectation, deadline: real, poll: real, start: real, tv: Receiver)
    returns (result: Result, log: seq<Read>, now: real)
    requires poll > 0.0
    requires forall k, t :: tv(k, t).elapsed >= 0.0
    ensures Promised(e, log, start, deadline, poll, tv, now, result)
  {
    hide Promised, Polling, AfterReads, WithinBudget, FromReceiver, LastStatus, LastError, Timed, KeepsTimeout, Covers;
    log, now := [], start;
    var check := new IdentityCheck(ExpectedIdentity(e));
    var lastStatus: Option<DeviceStatus> := None;
    var lastError: Option<ErrorCode> := None;
    NothingRead(e, start, deadline, poll, tv);
    ghost var left := PollsLeft(deadline - now, poll);
    while now < deadline
      invariant fresh(check) && (e.HasIdentity() ==> check.expected == e.identity)
      invariant Polling(e, log, start, deadline, poll, tv, check.contradiction, now)
      invariant lastStatus == LastStatus(log) && lastError == LastError(log)
      invariant Covers(left, deadline - now, poll)
      decreases left
    {
      ghost var entered := now;
      var read, decision := ReadOnce(e, check, log, start, deadline, poll, tv, now);
      LastOneMore(log, read);
      ReadDecides(e, log, read, start, deadline, poll, tv, check.contradiction, decision);
      ghost var before := log;
      log, now := log + [read], read.end;
      if read.outcome.Answered? {
        lastStatus := Some(read.outcome.status);
      }
      lastError := if read.outcome.ReadFailed? then Some(read.outcome.code) else None;
      if decision == Raise {
        return Raised, log, now;
      } else if decision == Confirm {
        return Confirmed(read.outcome.status), log, now;
      } else if decision == GiveUp {
        return Unconfirmed(lastStatus, lastError), log, now;
      }
      var remaining := deadline - now;
      if remaining > 0.0 {
        now := now + if poll < remaining then poll else remaining;
      }
      PollingOn(e, before, read, start, deadline, poll, tv, check.contradiction, now);
      PollTaken(left, deadline - entered, deadline - now, poll);
      left := left - 1;
    }
    BudgetIsSpent(e, log, start, deadline, poll, tv, check.contradiction, now);
    result := Unconfirmed(lastStatus, lastError);
  }
}
