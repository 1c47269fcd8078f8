/** Command counters with a bounded window that recognises a transmission made more than once. */
module Diagnostics {
  type Id = nat

  const WINDOW := 1024
  const MAX_COUNT := 0xFFFF_FFFF_FFFF_FFFF  // saturating 64-bit counters

  datatype Phase = Emitted | Transmitted | Confirmed | OtherPhase

  datatype Event = Event(phase: Phase, id: Id)

  datatype Annotation = Annotation(emitted: nat, transmitted: nat, confirmed: nat, multiple: nat, multipleDetected: bool)

  function AddOne(count: nat): nat { if count >= MAX_COUNT then MAX_COUNT else count + 1 }

  function AtMost(count: nat): nat { if count > MAX_COUNT then MAX_COUNT else count }

  // ---------------------------------------------------------------- the full history

  /** The last entries the window has room for. */
  function Last(s: seq<Id>): seq<Id> { if |s| <= WINDOW then s else s[|s| - WINDOW..] }

  /** The ids that entered the window, in order, over a whole history. */
  function Insertions(history: seq<Event>): seq<Id> {
    if history == [] then []
    else
      var before := Insertions(history[..|history| - 1]);
      var e := history[|history| - 1];
      if e.phase.Transmitted? && e.id !in Last(before) then before + [e.id] else before
  }

  /** The event repeats an id that is in the window. */
  predicate Flagged(history: seq<Event>, e: Event) {
    e.phase.Transmitted? && e.id in Last(Insertions(history))
  }

  function CountOf(history: seq<Event>, phase: Phase): nat {
    if history == [] then 0
    else CountOf(history[..|history| - 1], phase) + if history[|history| - 1].phase == phase then 1 else 0
  }

  function CountFlagged(history: seq<Event>): nat {
    if history == [] then 0
    else
      CountFlagged(history[..|history| - 1])
      + if Flagged(history[..|history| - 1], history[|history| - 1]) then 1 else 0
  }

  predicate Distinct(s: seq<Id>) { forall i, j :: 0 <= i < j < |s| ==> s[i] != s[j] }

  lemma LastGrows(before: seq<Id>, id: Id)
    ensures |Last(before)| == (if |before| < WINDOW then |before| else WINDOW)
    ensures Last(before + [id]) == (if |Last(before)| < WINDOW then Last(before) + [id] else (Last(before) + [id])[1..])
  {
  }

  lemma HistoryGrows(history: seq<Event>, e: Event)
    ensures forall phase :: CountOf(history + [e], phase) == CountOf(history, phase) + if e.phase == phase then 1 else 0
    ensures CountFlagged(history + [e]) == CountFlagged(history) + if Flagged(history, e) then 1 else 0
    ensures Insertions(history + [e]) ==
              if e.phase.Transmitted? && !Flagged(history, e) then Insertions(history) + [e.id] else Insertions(history)
  {
    assert (history + [e])[..|history|] == history;
  }

  // The set of ids follows the queue, whether or not its oldest id leaves.
  lemma WindowTurns(order: seq<Id>, id: Id)
    requires Distinct(order)
    ensures (set x | x in order + [id]) == (set x | x in order) + {id}
    ensures id !in order && order != [] ==> (set x | x in (order + [id])[1..]) == (set x | x in order) + {id} - {order[0]}
  {
    if id !in order && order != [] {
      assert (order + [id])[1..] == order[1..] + [id];
      assert order == [order[0]] + order[1..];
      forall x ensures x in order[1..] + [id] <==> (x in order || x == id) && x != order[0] {
        if x in order[1..] {
          var k :| 0 <= k < |order[1..]| && order[1..][k] == x;
          assert order[k + 1] == x;
        }
      }
    }
  }

  function SetOf(order: seq<Id>): set<Id> { set id | id in order }

  // The window after one more event.
  lemma WindowAfter(history: seq<Event>, e: Event)
    ensures var order, next := Last(Insertions(history)), Last(Insertions(history + [e]));
            var grown := order + [e.id];
            && (Flagged(history, e) <==> e.phase.Transmitted? && e.id in SetOf(order))
            && (!e.phase.Transmitted? || e.id in SetOf(order) ==> next == order)
            && (e.phase.Transmitted? && e.id !in SetOf(order) ==>
                  && next == (if |grown| > WINDOW then grown[1..] else grown)
                  && SetOf(next) == SetOf(order) + {e.id} - (if |grown| > WINDOW then {grown[0]} else {}))
  {
    WindowIsDistinct(history);
    HistoryGrows(history, e);
    LastGrows(Insertions(history), e.id);
    WindowTurns(Last(Insertions(history)), e.id);
    hide Insertions, Last, Distinct, CountOf, CountFlagged;
  }

  lemma CountsAfter(history: seq<Event>, e: Event)
    ensures forall phase :: AtMost(CountOf(history + [e], phase)) ==
              if e.phase == phase then AddOne(AtMost(CountOf(history, phase))) else AtMost(CountOf(history, phase))
    ensures AtMost(CountFlagged(history + [e])) ==
              if Flagged(history, e) then AddOne(AtMost(CountFlagged(history))) else AtMost(CountFlagged(history))
  {
    HistoryGrows(history, e);
    hide CountOf, CountFlagged, Flagged, Insertions;
  }

  // ---------------------------------------------------------------- the counters

  class DiagnosticCounts {
    var emitted: nat
    var transmitted: nat
    var confirmed: nat
    var multiple: nat
    var recentTransmissions: set<Id>
    var transmissionOrder: seq<Id>
    ghost var history: seq<Event>

    /** The counters and the window are those of the whole history. */
    ghost predicate Valid()
      reads this
    {
      && emitted == AtMost(CountOf(history, Emitted)) && transmitted == AtMost(CountOf(history, Transmitted))
      && confirmed == AtMost(CountOf(history, Confirmed)) && multiple == AtMost(CountFlagged(history))
      && transmissionOrder == Last(Insertions(history))
      && recentTransmissions == SetOf(transmissionOrder)
    }

    constructor ()
      ensures Valid() && history == []
    {
      emitted, transmitted, confirmed, multiple := 0, 0, 0, 0;
      recentTransmissions, transmissionOrder, history := {}, [], [];
    }

    /** Counts one event; the window forgets its oldest id only when it holds more than it may. */
    method Annotate(e: Event) returns (note: Annotation)
      requires Valid()
      modifies this
      ensures Valid() && history == old(history) + [e]
      ensures note.multipleDetected <==> Flagged(old(history), e)
      ensures note == Annotation(emitted, transmitted, confirmed, multiple, note.multipleDetected)
    {
      var detected := false;
      WindowAfter(history, e);
      CountsAfter(history, e);
      hide Insertions, CountOf, CountFlagged, Last, SetOf, Flagged, AddOne, AtMost;
      match e.phase {
        case Emitted => emitted := AddOne(emitted);
        case Transmitted =>
          transmitted := AddOne(transmitted);
          if e.id in recentTransmissions {
            multiple := AddOne(multiple);
            detected := true;
          } else {
            recentTransmissions := recentTransmissions + {e.id};
            transmissionOrder := transmissionOrder + [e.id];
            if |transmissionOrder| > WINDOW {
              var expired := transmissionOrder[0];
              transmissionOrder := transmissionOrder[1..];
              recentTransmissions := recentTransmissions - {expired};
            }
          }
        case Confirmed => confirmed := AddOne(confirmed);
        case OtherPhase =>
      }
      history := history + [e];
      note := Annotation(emitted, transmitted, confirmed, multiple, detected);
    }
  }

  // ---------------------------------------------------------------- what the window means

  /** The window never holds an id twice, nor more than 1024 of them. */
  lemma {:induction false} WindowIsDistinct(history: seq<Event>)
    ensures |Last(Insertions(history))| <= WINDOW && Distinct(Last(Insertions(history)))
  {
    if history != [] {
      WindowIsDistinct(history[..|history| - 1]);
      var before, e := Insertions(history[..|history| - 1]), history[|history| - 1];
      if Insertions(history) != before {
        LastGrows(before, e.id);
      }
    }
  }

  lemma {:induction false} InsertedWasTransmitted(history: seq<Event>, id: Id)
    requires id in Insertions(history)
    ensures exists i :: 0 <= i < |history| && history[i] == Event(Transmitted, id)
  {
    var front, e := history[..|history| - 1], history[|history| - 1];
    if id in Insertions(front) {
      InsertedWasTransmitted(front, id);
      var i :| 0 <= i < |front| && front[i] == Event(Transmitted, id);
      assert history[i] == front[i];
    } else {
      assert history[|history| - 1] == Event(Transmitted, id);
    }
  }

  /** A flagged event really was transmitted before. */
  lemma FlaggedWasTransmitted(history: seq<Event>, e: Event)
    requires Flagged(history, e)
    ensures exists i :: 0 <= i < |history| && history[i] == e
  {
    var all := Insertions(history);
    var k :| 0 <= k < |Last(all)| && Last(all)[k] == e.id;
    assert e.id in all;
    InsertedWasTransmitted(history, e.id);
  }

  lemma {:induction false} InsertionsGrow(history: seq<Event>, i: nat)
    requires i <= |history|
    ensures Insertions(history[..i]) <= Insertions(history)
    ensures |Insertions(history)| <= |Insertions(history[..i])| + (|history| - i)
  {
    if i < |history| {
      assert history[..|history| - 1][..i] == history[..i];
      InsertionsGrow(history[..|history| - 1], i);
    } else {
      assert history[..i] == history;
    }
  }

  /** Transmission `i` of the history put the id into the window. */
  predicate EntersAt(history: seq<Event>, i: nat, e: Event) {
    i < |history| && history[i] == e && e.phase.Transmitted? && !Flagged(history[..i], e)
  }

  /** How many ids entered the window after event `i`. */
  function EnteredSince(history: seq<Event>, i: nat): int
    requires i < |history|
  {
    |Insertions(history)| - |Insertions(history[..i + 1])|
  }

  // Where in the order of insertions a transmission stands.
  lemma EntryPlace(history: seq<Event>, i: nat, e: Event)
    requires EntersAt(history, i, e)
    ensures var at := |Insertions(history[..i])|;
            && |Insertions(history[..i + 1])| == at + 1 <= |Insertions(history)| && Insertions(history)[at] == e.id
  {
    assert history[..i + 1][..i] == history[..i];
    InsertionsGrow(history, i + 1);
    assert Insertions(history[..i + 1])[|Insertions(history[..i])|] == e.id;
  }

  // Every insertion is some transmission's.
  lemma {:induction false} EntryOf(history: seq<Event>, at: nat) returns (i: nat)
    requires at < |Insertions(history)|
    ensures EntersAt(history, i, Event(Transmitted, Insertions(history)[at])) && |Insertions(history[..i])| == at
  {
    var front := history[..|history| - 1];
    if at < |Insertions(front)| {
      i := EntryOf(front, at);
      assert history[..i] == front[..i] && history[i] == front[i];
    } else {
      i := |history| - 1;
    }
  }

  lemma InLast(all: seq<Id>, id: Id)
    ensures id in Last(all) <==> exists at :: 0 <= at < |all| && all[at] == id && |all| - at <= WINDOW
  {
    if at :| 0 <= at < |all| && all[at] == id && |all| - at <= WINDOW {
      if |all| > WINDOW {
        assert Last(all)[at - (|all| - WINDOW)] == id;
      }
    }
    if id in Last(all) {
      var k :| 0 <= k < |Last(all)| && Last(all)[k] == id;
      assert all[|all| - |Last(all)| + k] == id;
    }
  }

  /** What is flagged, exactly: a transmission of an id that entered the window, and after which fewer
      than 1024 ids have entered it. */
  lemma FlaggedExactlyWhen(history: seq<Event>, e: Event)
    requires e.phase.Transmitted?
    ensures Flagged(history, e) <==> exists i :: EntersAt(history, i, e) && EnteredSince(history, i) < WINDOW
  {
    var all := Insertions(history);
    InLast(all, e.id);
    hide Last, Insertions, Flagged;
    assert Flagged(history, e) <==> e.id in Last(Insertions(history)) by { FlaggedIs(history, e); }
    if i :| EntersAt(history, i, e) && EnteredSince(history, i) < WINDOW {
      EntryPlace(history, i, e);
    }
    if at :| 0 <= at < |all| && all[at] == e.id && |all| - at <= WINDOW {
      var i := EntryOf(history, at);
      EntryPlace(history, i, e);
      assert EntersAt(history, i, e) && EnteredSince(history, i) < WINDOW;
    }
  }

  lemma FlaggedIs(history: seq<Event>, e: Event)
    requires e.phase.Transmitted?
    ensures Flagged(history, e) <==> e.id in Last(Insertions(history))
  {
  }

  /** In particular every repeat fewer than 1024 events after its id entered the window is flagged. */
  lemma RepeatInWindowIsFlagged(history: seq<Event>, i: nat, e: Event)
    requires i < |history| && history[i] == e && e.phase.Transmitted? && !Flagged(history[..i], e)
    requires |history| - i <= WINDOW
    ensures Flagged(history, e)
  {
    InsertionsGrow(history, i + 1);
    hide Insertions, Flagged, Last;
    FlaggedExactlyWhen(history, e);
    assert EntersAt(history, i, e) && EnteredSince(history, i) < WINDOW;
  }

  /** Every transmission is either an insertion or a flagged repeat. */
  lemma {:induction false} TransmissionsAddUp(history: seq<Event>)
    ensures CountOf(history, Transmitted) == |Insertions(history)| + CountFlagged(history)
  {
    if history != [] {
      TransmissionsAddUp(history[..|history| - 1]);
    }
  }

  // ---------------------------------------------------------------- what the window misses

  /** Transmissions of the ids from `from` up to `to`. */
  function Burst(from: nat, to: nat): seq<Event>
    requires from <= to
  {
    seq(to - from, k requires 0 <= k => Event(Transmitted, from + k))
  }

  function Ids(to: nat): seq<Id> { seq(to, k => k) }

  lemma {:induction false} BurstInserts(to: nat)
    ensures Insertions(Burst(0, to)) == Ids(to)
  {
    if to > 0 {
      assert Burst(0, to)[..to - 1] == Burst(0, to - 1);
      BurstInserts(to - 1);
      assert to - 1 !in Ids(to - 1);
      assert Ids(to) == Ids(to - 1) + [to - 1];
      assert to - 1 !in Last(Ids(to - 1));
    }
  }

  /** A flagged repeat does not renew its id: the same id, sent again two transmissions later, can go
      unflagged. */
  lemma RepeatOfRepeatCanBeMissed()
    ensures var again := Event(Transmitted, 0);
            var history := Burst(0, WINDOW) + [again] + [Event(Transmitted, WINDOW)];
            && Flagged(history[..WINDOW], again) && history[|history| - 2] == again && !Flagged(history, again)
  {
    var again, other := Event(Transmitted, 0), Event(Transmitted, WINDOW);
    var full := Burst(0, WINDOW);
    var history := full + [again] + [other];
    BurstInserts(WINDOW);
    assert history[..WINDOW] == full;
    assert Ids(WINDOW)[0] == 0 && 0 in Last(Ids(WINDOW));
    assert (full + [again])[..WINDOW] == full;
    assert Insertions(full + [again]) == Ids(WINDOW);
    assert history[..WINDOW + 1] == full + [again];
    assert WINDOW !in Ids(WINDOW);
    assert Insertions(history) == Ids(WINDOW) + [WINDOW];
    var last := Last(Ids(WINDOW) + [WINDOW]);
    forall k | 0 <= k < |last| ensures last[k] == k + 1 {}
  }
}
