/** Latency arithmetic of the acceptance films: percentiles, distributions, and the verdict on a
    filmed key step. Measurements are real numbers. */
module Latency {
  import opened Domain

  // ---------------------------------------------------------------- sorted samples

  function Insert(sorted: seq<real>, v: real): seq<real> {
    if sorted == [] || sorted[|sorted| - 1] <= v then sorted + [v]
    else Insert(sorted[..|sorted| - 1], v) + [sorted[|sorted| - 1]]
  }

  function Sort(values: seq<real>): seq<real> {
    if values == [] then [] else Insert(Sort(values[..|values| - 1]), values[|values| - 1])
  }

  predicate Ascending(s: seq<real>) { forall i, j :: 0 <= i < j < |s| ==> s[i] <= s[j] }

  lemma {:induction false} InsertSorts(sorted: seq<real>, v: real)
    requires Ascending(sorted)
    ensures Ascending(Insert(sorted, v)) && multiset(Insert(sorted, v)) == multiset(sorted) + multiset{v}
  {
    if sorted != [] && v < sorted[|sorted| - 1] {
      var front, last := sorted[..|sorted| - 1], sorted[|sorted| - 1];
      assert sorted == front + [last];
      InsertSorts(front, v);
      AppendKeepsAscending(front, v, Insert(front, v), last);
    }
  }

  lemma AppendKeepsAscending(front: seq<real>, v: real, inserted: seq<real>, last: real)
    requires Ascending(inserted) && multiset(inserted) == multiset(front) + multiset{v}
    requires Ascending(front + [last]) && v < last
    ensures Ascending(inserted + [last])
  {
    forall i | 0 <= i < |inserted| ensures inserted[i] <= last {
      assert inserted[i] in multiset(inserted);
      if inserted[i] != v {
        var j :| 0 <= j < |front| && front[j] == inserted[i];
        assert (front + [last])[j] == front[j] && (front + [last])[|front|] == last;
      }
    }
  }

  lemma {:induction false} SortSorts(values: seq<real>)
    ensures Ascending(Sort(values)) && multiset(Sort(values)) == multiset(values) && |Sort(values)| == |values|
  {
    if values != [] {
      var front, last := values[..|values| - 1], values[|values| - 1];
      assert values == front + [last];
      SortSorts(front);
      InsertSorts(Sort(front), last);
    }
    assert |multiset(Sort(values))| == |multiset(values)|;
  }

  lemma DropLast(s: seq<real>)
    requires s != []
    ensures s == s[..|s| - 1] + [s[|s| - 1]] && multiset(s[..|s| - 1]) == multiset(s) - multiset{s[|s| - 1]}
  {
    assert s == s[..|s| - 1] + [s[|s| - 1]];
  }

  lemma LargestIsLast(s: seq<real>, v: real)
    requires Ascending(s) && v in multiset(s)
    ensures s != [] && v <= s[|s| - 1]
  {
  }

  lemma SameLargest(a: seq<real>, b: seq<real>)
    requires Ascending(a) && Ascending(b) && multiset(a) == multiset(b) && a != []
    ensures |a| == |b| && a[|a| - 1] == b[|a| - 1]
    ensures multiset(a[..|a| - 1]) == multiset(b[..|a| - 1])
  {
    hide Ascending;
    assert |multiset(a)| == |multiset(b)|;
    var n := |a| - 1;
    assert a[n] in multiset(a) && b[n] in multiset(b);
    LargestIsLast(a, b[n]);
    LargestIsLast(b, a[n]);
    DropLast(a);
    DropLast(b);
  }

  lemma {:induction false} AscendingIsUnique(a: seq<real>, b: seq<real>)
    requires Ascending(a) && Ascending(b) && multiset(a) == multiset(b)
    ensures a == b
  {
    assert |multiset(a)| == |multiset(b)|;
    if a != [] {
      SameLargest(a, b);
      var n := |a| - 1;
      AscendingIsUnique(a[..n], b[..n]);
      hide Ascending;
      assert a == a[..n] + [a[n]] && b == b[..n] + [b[n]];
    }
  }

  /** Sorting forgets the order in which the samples came. */
  lemma SortIgnoresOrder(a: seq<real>, b: seq<real>)
    requires multiset(a) == multiset(b)
    ensures Sort(a) == Sort(b)
  {
    SortSorts(a);
    SortSorts(b);
    AscendingIsUnique(Sort(a), Sort(b));
  }

  // ---------------------------------------------------------------- percentiles

  /** Linear interpolation between the two samples around a position. */
  function At(ordered: seq<real>, position: real): real
    requires ordered != [] && 0.0 <= position <= (|ordered| - 1) as real
  {
    var lower := position.Floor;
    if lower as real == position then ordered[lower]
    else ordered[lower] + (ordered[lower + 1] - ordered[lower]) * (position - lower as real)
  }

  function Position(count: nat, percentage: real): real { (count - 1) as real * percentage / 100.0 }

  lemma PositionInRange(count: nat, percentage: real)
    requires 1 <= count && 0.0 <= percentage <= 100.0
    ensures 0.0 <= Position(count, percentage) <= (count - 1) as real
  {
    var n := (count - 1) as real;
    assert n * percentage <= n * 100.0;
  }

  lemma PositionGrows(count: nat, p: real, q: real)
    requires 1 <= count && p <= q
    ensures Position(count, p) <= Position(count, q)
  {
    var n := (count - 1) as real;
    assert n * p <= n * q;
  }

  /** `percentile`; None where it raises for want of samples. */
  function Percentile(values: seq<real>, percentage: real): Option<real>
    requires 0.0 <= percentage <= 100.0
  {
    SortSorts(values);
    if values == [] then None
    else
      PositionInRange(|values|, percentage);
      Some(At(Sort(values), Position(|values|, percentage)))
  }

  lemma NotNegative(x: real, t: real)
    requires 0.0 <= x && 0.0 <= t
    ensures 0.0 <= x * t
  {
  }

  lemma Between(a: real, b: real, t: real)
    requires a <= b && 0.0 <= t <= 1.0
    ensures a <= a + (b - a) * t <= b
  {
    NotNegative(b - a, t);
    NotNegative(b - a, 1.0 - t);
    assert (b - a) * (1.0 - t) == (b - a) - (b - a) * t;
  }

  lemma InterpolationGrows(a: real, b: real, s: real, t: real)
    requires a <= b && s <= t
    ensures a + (b - a) * s <= a + (b - a) * t
  {
    NotNegative(b - a, t - s);
    assert (b - a) * (t - s) == (b - a) * t - (b - a) * s;
  }

  /** The value at a position lies between the samples around it. */
  lemma AtIsBetween(ordered: seq<real>, position: real)
    requires Ascending(ordered) && ordered != [] && 0.0 <= position <= (|ordered| - 1) as real
    ensures var k := position.Floor;
            0 <= k < |ordered| && ordered[k] <= At(ordered, position)
            && (k + 1 < |ordered| ==> At(ordered, position) <= ordered[k + 1])
            && (k + 1 == |ordered| ==> At(ordered, position) == ordered[k])
  {
    var k := position.Floor;
    if k as real != position {
      Between(ordered[k], ordered[k + 1], position - k as real);
    }
  }

  lemma AtGrows(ordered: seq<real>, p: real, q: real)
    requires Ascending(ordered) && ordered != [] && 0.0 <= p <= q <= (|ordered| - 1) as real
    ensures At(ordered, p) <= At(ordered, q)
  {
    AtIsBetween(ordered, p);
    AtIsBetween(ordered, q);
    var i, j := p.Floor, q.Floor;
    if i == j {
      if i as real != q {
        InterpolationGrows(ordered[i], ordered[i + 1], p - i as real, q - i as real);
        if i as real == p {
          assert At(ordered, p) == ordered[i];
        }
      }
    } else {
      assert i < j;
      assert ordered[i + 1] <= ordered[j] by {
        assert i + 1 == j || ordered[i + 1] <= ordered[j];
      }
    }
  }

  /** A percentile lies between the smallest and the largest sample. */
  lemma PercentileInRange(values: seq<real>, percentage: real)
    requires values != [] && 0.0 <= percentage <= 100.0
    ensures Percentile(values, percentage).Some?
    ensures exists lo, hi :: lo in values && hi in values && (forall v :: v in values ==> lo <= v <= hi)
                             && lo <= Percentile(values, percentage).value <= hi
  {
    var ordered, n := Sort(values), |values| - 1;
    SortSorts(values);
    PositionInRange(|values|, percentage);
    var position := Position(|values|, percentage);
    AtIsBetween(ordered, position);
    hide At, Position, Sort;
    assert ordered[0] in multiset(values) && ordered[n] in multiset(values);
    forall v | v in values ensures ordered[0] <= v <= ordered[n] {
      assert v in multiset(ordered);
      var k :| 0 <= k < |ordered| && ordered[k] == v;
    }
    var k := position.Floor;
    assert ordered[0] <= ordered[k] && (k + 1 < |ordered| ==> ordered[k + 1] <= ordered[n]);
    assert ordered[0] in values && ordered[n] in values && ordered[0] <= Percentile(values, percentage).value <= ordered[n];
  }

  /** A higher percentage never gives a lower value. */
  lemma PercentileIsMonotone(values: seq<real>, p: real, q: real)
    requires values != [] && 0.0 <= p <= q <= 100.0
    ensures Percentile(values, p).value <= Percentile(values, q).value
  {
    SortSorts(values);
    PositionInRange(|values|, p);
    PositionInRange(|values|, q);
    PositionGrows(|values|, p, q);
    hide At, Position, Sort;
    AtGrows(Sort(values), Position(|values|, p), Position(|values|, q));
  }

  /** The order of the samples does not matter. */
  lemma PercentileIgnoresOrder(a: seq<real>, b: seq<real>, percentage: real)
    requires multiset(a) == multiset(b) && 0.0 <= percentage <= 100.0
    ensures Percentile(a, percentage) == Percentile(b, percentage)
  {
    SortIgnoresOrder(a, b);
    assert |multiset(a)| == |multiset(b)|;
    hide At, Position, Sort;
  }

  /** The middle sample, or the mean of the two middle ones. */
  function Median(values: seq<real>): real
    requires values != []
  {
    SortSorts(values);
    var ordered, half := Sort(values), |values| / 2;
    if |values| % 2 == 1 then ordered[half] else (ordered[half - 1] + ordered[half]) / 2.0
  }

  lemma MiddlePosition(count: nat)
    requires 1 <= count
    ensures count % 2 == 1 ==> Position(count, 50.0) == (count / 2) as real
    ensures count % 2 == 0 ==> Position(count, 50.0) == (count / 2) as real - 0.5
  {
    var half := count / 2;
    if count % 2 == 1 {
      assert count == 2 * half + 1;
    } else {
      assert count == 2 * half;
    }
  }

  lemma AtMiddle(ordered: seq<real>)
    requires ordered != []
    ensures var half := |ordered| / 2;
            if |ordered| % 2 == 1 then At(ordered, half as real) == ordered[half]
            else At(ordered, half as real - 0.5) == (ordered[half - 1] + ordered[half]) / 2.0
  {
    var half := |ordered| / 2;
    if |ordered| % 2 == 0 {
      assert (half as real - 0.5).Floor == half - 1;
    }
  }

  /** The 50th percentile is the median. */
  lemma PercentileFiftyIsMedian(values: seq<real>)
    requires values != []
    ensures Percentile(values, 50.0) == Some(Median(values))
  {
    hide Position, Sort, At, Ascending;
    SortSorts(values);
    PositionInRange(|values|, 50.0);
    MiddlePosition(|values|);
    AtMiddle(Sort(values));
  }

  // ---------------------------------------------------------------- a filmed key step

  datatype Press = Press(
    madeWhileIdle: bool, sent: bool, focusMoves: int, outcomeShown: bool, mayHaveReached: bool,
    sendFrame: Option<int>, effectFrame: Option<int>, readyFrame: Option<int>)

  datatype Criterion = Criterion(effectMedian: real, effectSlowest: real, readyMedian: real)

  datatype Verdict = PASS | FAIL | NOT_RUN

  datatype Judgement = Refused | Judged(verdict: Verdict)

  predicate BadFrame(f: Option<int>) { f.Some? && f.value < 0 }

  /** A record that cannot be read: negative numbers, or frames out of order. */
  predicate Malformed(p: Press) {
    || p.focusMoves < 0 || BadFrame(p.sendFrame) || BadFrame(p.effectFrame) || BadFrame(p.readyFrame)
    || (&& p.sent && p.sendFrame.Some? && p.readyFrame.Some?
        && (|| p.readyFrame.value < p.sendFrame.value
            || (p.focusMoves == 1 && p.effectFrame.Some? && p.effectFrame.value < p.sendFrame.value)))
  }

  /** The film shows the contract broken. */
  predicate ShowsFailure(p: Press) {
    || (p.madeWhileIdle && !p.sent) || (!p.sent && p.focusMoves != 0) || p.focusMoves > 1 || !p.outcomeShown
    || (p.sent && p.focusMoves == 0 && !p.mayHaveReached)
  }

  /** The film cannot show the outcome. */
  predicate ShowsTooLittle(p: Press) {
    p.sent && (|| (p.focusMoves == 0 && p.mayHaveReached) || p.sendFrame.None? || p.readyFrame.None?
               || (p.focusMoves == 1 && p.effectFrame.None?))
  }

  function ReadyDelay(p: Press, fps: real): seq<real>
    requires fps > 0.0
  {
    if p.sent && p.sendFrame.Some? && p.readyFrame.Some?
    then [(p.readyFrame.value - p.sendFrame.value) as real / fps] else []
  }

  function EffectDelay(p: Press, fps: real): seq<real>
    requires fps > 0.0
  {
    if p.sent && p.sendFrame.Some? && p.readyFrame.Some? && p.focusMoves == 1 && p.effectFrame.Some?
    then [(p.effectFrame.value - p.sendFrame.value) as real / fps] else []
  }

  function Delays(presses: seq<Press>, fps: real, effect: bool): seq<real>
    requires fps > 0.0
  {
    if presses == [] then []
    else
      var last := presses[|presses| - 1];
      Delays(presses[..|presses| - 1], fps, effect) + if effect then EffectDelay(last, fps) else ReadyDelay(last, fps)
  }

  function Slowest(values: seq<real>): real
    requires values != []
  {
    if |values| == 1 then values[0]
    else
      var front := Slowest(values[..|values| - 1]);
      if values[|values| - 1] > front then values[|values| - 1] else front
  }

  predicate Exceeds(effect: seq<real>, ready: seq<real>, limit: Option<Criterion>) {
    limit.Some? && effect != [] && ready != []
    && (Median(effect) > limit.value.effectMedian || Slowest(effect) > limit.value.effectSlowest
        || Median(ready) > limit.value.readyMedian)
  }

  function SumMoves(presses: seq<Press>): int {
    if presses == [] then 0 else SumMoves(presses[..|presses| - 1]) + presses[|presses| - 1].focusMoves
  }

  function CountSent(presses: seq<Press>): nat {
    if presses == [] then 0 else CountSent(presses[..|presses| - 1]) + if presses[|presses| - 1].sent then 1 else 0
  }

  /** Presses of which none fails or shows too little: each one sent moved the focus once, no other did,
      so it moved in all exactly as often as a press was sent. */
  lemma {:induction false} PassMeansOneMoveEach(presses: seq<Press>)
    requires forall p :: p in presses ==> !Malformed(p) && !ShowsFailure(p) && !ShowsTooLittle(p)
    ensures SumMoves(presses) == CountSent(presses)
    ensures forall p :: p in presses ==> p.focusMoves == if p.sent then 1 else 0
  {
    if presses != [] {
      assert presses[|presses| - 1] in presses;
      PassMeansOneMoveEach(presses[..|presses| - 1]);
    }
  }

  /** One press's part of `evaluate_key_step`: what it adds to the failures, to what is missing and to the
      delays, unless it is malformed. */
  method JudgePress(press: Press, fps: real)
    returns (malformed: bool, failures: nat, missing: nat, effect: seq<real>, ready: seq<real>)
    requires fps > 0.0
    ensures malformed <==> Malformed(press)
    ensures !malformed ==> (failures > 0 <==> ShowsFailure(press)) && (missing > 0 <==> ShowsTooLittle(press))
    ensures !malformed ==> effect == EffectDelay(press, fps) && ready == ReadyDelay(press, fps)
  {
    malformed, failures, missing, effect, ready := true, 0, 0, [], [];
    if press.focusMoves < 0 || BadFrame(press.sendFrame) || BadFrame(press.effectFrame) || BadFrame(press.readyFrame) {
      return;
    }
    if press.madeWhileIdle && !press.sent {
      failures := failures + 1;
    }
    if !press.sent && press.focusMoves != 0 {
      failures := failures + 1;
    }
    if press.focusMoves > 1 {
      failures := failures + 1;
    }
    if !press.outcomeShown {
      failures := failures + 1;
    }
    if press.sent {
      if press.focusMoves == 0 {
        if press.mayHaveReached {
          missing := missing + 1;
        } else {
          failures := failures + 1;
        }
      }
      if press.sendFrame.None? || press.readyFrame.None? {
        missing := missing + 1;
      } else {
        if press.readyFrame.value < press.sendFrame.value {
          return;
        }
        ready := [(press.readyFrame.value - press.sendFrame.value) as real / fps];
        if press.focusMoves == 1 {
          if press.effectFrame.None? {
            missing := missing + 1;
          } else if press.effectFrame.value < press.sendFrame.value {
            return;
          } else {
            effect := [(press.effectFrame.value - press.sendFrame.value) as real / fps];
          }
        }
      }
    }
    malformed := false;
  }

  /** `evaluate_key_step`. A PASS means ten presses, of which each one sent moved the focus once. */
  method EvaluateKeyStep(presses: seq<Press>, fps: real, limit: Option<Criterion>) returns (r: Judgement)
    ensures r.Refused? <==> fps <= 0.0 || exists p :: p in presses && Malformed(p)
    ensures r.Judged? ==> fps > 0.0
    ensures r.Judged? ==>
              var fails := exists p :: p in presses && ShowsFailure(p);
              var lacks := |presses| != 10 || exists p :: p in presses && ShowsTooLittle(p);
              var slow := Exceeds(Delays(presses, fps, true), Delays(presses, fps, false), limit);
              (r.verdict == FAIL <==> fails || (slow && !lacks)) && (r.verdict == NOT_RUN <==> lacks && !fails)
    ensures r == Judged(PASS) ==> |presses| == 10 && SumMoves(presses) == CountSent(presses)
    ensures r == Judged(PASS) ==> forall p :: p in presses ==> p.focusMoves == if p.sent then 1 else 0
  {
    hide Median, Exceeds, Slowest, Malformed, ShowsFailure, ShowsTooLittle, EffectDelay, ReadyDelay;
    if fps <= 0.0 {
      return Refused;
    }
    var failures, missing := 0, if |presses| != 10 then 1 else 0;
    var effect: seq<real>, ready: seq<real> := [], [];
    for i := 0 to |presses|
      invariant 0 <= failures && 0 <= missing
      invariant forall p :: p in presses[..i] ==> !Malformed(p)
      invariant failures > 0 <==> exists p :: p in presses[..i] && ShowsFailure(p)
      invariant missing > 0 <==> |presses| != 10 || exists p :: p in presses[..i] && ShowsTooLittle(p)
      invariant effect == Delays(presses[..i], fps, true) && ready == Delays(presses[..i], fps, false)
    {
      assert presses[i] in presses;
      var malformed, failing, lacking, effects, readies := JudgePress(presses[i], fps);
      if malformed {
        return Refused;
      }
      failures, missing := failures + failing, missing + lacking;
      effect, ready := effect + effects, ready + readies;
      PressCounted(presses, i, fps);
    }
    assert presses[..|presses|] == presses;
    if Exceeds(effect, ready, limit) && failures == 0 && missing == 0 {
      failures := failures + 1;
    }
    if failures == 0 && missing == 0 {
      PassMeansOneMoveEach(presses);
    }
    return Judged(if failures > 0 then FAIL else if missing > 0 then NOT_RUN else PASS);
  }

  lemma PressCounted(presses: seq<Press>, i: nat, fps: real)
    requires i < |presses| && fps > 0.0
    ensures Delays(presses[..i + 1], fps, true) == Delays(presses[..i], fps, true) + EffectDelay(presses[i], fps)
    ensures Delays(presses[..i + 1], fps, false) == Delays(presses[..i], fps, false) + ReadyDelay(presses[i], fps)
    ensures forall p :: p in presses[..i + 1] <==> p in presses[..i] || p == presses[i]
  {
    assert presses[..i + 1][..i] == presses[..i];
    assert presses[..i + 1] == presses[..i] + [presses[i]];
  }
}
