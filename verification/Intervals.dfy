/**
 Merging activity intervals and measuring how much of a request they cover
 (`benchmark/tail-localization/analyze.py`).  Times are whole nanoseconds.
 */
module Intervals {
  import opened Basics

  datatype Span = Span(start: int, end: int)

  // ----- sorting -----

  predicate Before(a: Span, b: Span) {
    a.start < b.start || (a.start == b.start && a.end <= b.end)
  }

  predicate Ordered(s: seq<Span>) {
    forall i, j :: 0 <= i < j < |s| ==> Before(s[i], s[j])
  }

  function Insert(x: Span, s: seq<Span>): seq<Span> {
    if s == [] || Before(x, s[0]) then [x] + s else [s[0]] + Insert(x, s[1..])
  }

  lemma {:induction false} InsertElements(x: Span, s: seq<Span>)
    ensures multiset(Insert(x, s)) == multiset(s) + multiset{x}
  {
    if s != [] && !Before(x, s[0]) {
      InsertElements(x, s[1..]);
      assert s == [s[0]] + s[1..];
    }
  }

  lemma {:induction false} InsertOrdered(x: Span, s: seq<Span>)
    requires Ordered(s)
    ensures Ordered(Insert(x, s))
  {
    if s == [] || Before(x, s[0]) {
      assert Insert(x, s) == [x] + s;
    } else {
      var rest := Insert(x, s[1..]);
      InsertOrdered(x, s[1..]);
      InsertElements(x, s[1..]);
      forall y | y in rest
        ensures Before(s[0], y)
      {
        assert y in multiset(rest);
        assert y == x || y in s[1..];
      }
      assert Insert(x, s) == [s[0]] + rest;
    }
  }

  /** The intervals in lexicographic order. */
  function Sorted(s: seq<Span>): seq<Span> {
    if s == [] then [] else Insert(s[|s| - 1], Sorted(s[..|s| - 1]))
  }

  lemma {:induction false} SortedIsOrdered(s: seq<Span>)
    ensures Ordered(Sorted(s)) && multiset(Sorted(s)) == multiset(s)
    ensures forall x :: x in s <==> x in Sorted(s)
  {
    hide Insert;
    if s != [] {
      var init := s[..|s| - 1];
      SortedIsOrdered(init);
      InsertOrdered(s[|s| - 1], Sorted(init));
      InsertElements(s[|s| - 1], Sorted(init));
      assert s == init + [s[|s| - 1]];
    }
    assert forall x :: x in s <==> x in multiset(s);
    assert forall x :: x in Sorted(s) <==> x in multiset(Sorted(s));
  }

  // ----- coverage -----

  /** Some interval is under way at the instant `t`. */
  predicate Covers(s: seq<Span>, t: int) {
    exists x :: x in s && x.start <= t < x.end
  }

  /** The same for closed intervals, in which an empty interval still has its one point. */
  predicate Touches(s: seq<Span>, t: int) {
    exists x :: x in s && x.start <= t <= x.end
  }

  predicate Forward(s: seq<Span>) {
    forall x :: x in s ==> x.start <= x.end
  }

  /** Each interval ends before the next begins. */
  predicate Separated(s: seq<Span>) {
    && (forall i :: 0 <= i < |s| ==> s[i].start <= s[i].end)
    && (forall i, j :: 0 <= i < j < |s| ==> s[i].end < s[j].start)
  }

  ghost predicate SameCover(a: seq<Span>, b: seq<Span>) {
    forall t :: (Covers(a, t) <==> Covers(b, t)) && (Touches(a, t) <==> Touches(b, t))
  }

  lemma CoverAppend(s: seq<Span>, x: Span, t: int)
    ensures Covers(s + [x], t) <==> Covers(s, t) || x.start <= t < x.end
    ensures Touches(s + [x], t) <==> Touches(s, t) || x.start <= t <= x.end
  {
    assert forall y :: y in s + [x] <==> y in s || y == x;
  }

  /** Either way of taking in the next interval keeps the cover. */
  lemma MergeStep(done: seq<Span>, merged: seq<Span>, x: Span)
    requires SameCover(done, merged) && x.start <= x.end
    ensures SameCover(done + [x], merged + [x])
    ensures merged != [] && merged[|merged| - 1].start <= x.start <= merged[|merged| - 1].end ==>
              SameCover(done + [x], merged[..|merged| - 1] + [Span(merged[|merged| - 1].start,
                                                                   Max(x.end, merged[|merged| - 1].end))])
  {
    forall t
      ensures (Covers(done + [x], t) <==> Covers(merged + [x], t)) &&
              (Touches(done + [x], t) <==> Touches(merged + [x], t))
    {
      CoverAppend(done, x, t);
      CoverAppend(merged, x, t);
    }
    if merged != [] && merged[|merged| - 1].start <= x.start <= merged[|merged| - 1].end {
      var init, last := merged[..|merged| - 1], merged[|merged| - 1];
      var wide := Span(last.start, Max(x.end, last.end));
      assert merged == init + [last];
      forall t
        ensures (Covers(done + [x], t) <==> Covers(init + [wide], t)) &&
                (Touches(done + [x], t) <==> Touches(init + [wide], t))
      {
        CoverAppend(done, x, t);
        CoverAppend(init, last, t);
        CoverAppend(init, wide, t);
      }
    }
  }

  lemma SameElementsSameCover(a: seq<Span>, b: seq<Span>)
    requires forall x :: x in a <==> x in b
    ensures SameCover(a, b)
  {
  }

  /** The step of the merge loop. */
  function Absorb(m: seq<Span>, x: Span): seq<Span> {
    if m != [] && x.start <= m[|m| - 1].end then
      m[..|m| - 1] + [Span(m[|m| - 1].start, Max(x.end, m[|m| - 1].end))]
    else m + [x]
  }

  /** What the loop keeps about the intervals merged so far and the start of the last one taken. */
  ghost predicate Merged(done: seq<Span>, m: seq<Span>, reach: int) {
    Separated(m) && SameCover(done, m) && (m != [] ==> m[|m| - 1].start <= reach)
  }

  lemma AbsorbKeeps(done: seq<Span>, m: seq<Span>, reach: int, x: Span)
    requires Merged(done, m, reach) && x.start <= x.end && reach <= x.start
    ensures Merged(done + [x], Absorb(m, x), x.start)
  {
    hide SameCover;
    MergeStep(done, m, x);
  }

  /** The union of the intervals; absent exactly when one of them is reversed. */
  method IntervalUnion(intervals: seq<Span>) returns (merged: Option<seq<Span>>)
    ensures merged.Some? <==> Forward(intervals)
    ensures merged.Some? ==> Separated(merged.value) && SameCover(intervals, merged.value)
  {
    hide SameCover, Separated, Sorted;
    var sorted := Sorted(intervals);
    SortedIsOrdered(intervals);
    var m: seq<Span> := [];
    ghost var reach := if sorted == [] then 0 else sorted[0].start;
    NothingMerged(reach);
    for i := 0 to |sorted|
      invariant forall k :: 0 <= k < i ==> sorted[k].start <= sorted[k].end
      invariant Merged(sorted[..i], m, reach)
      invariant i < |sorted| ==> reach <= sorted[i].start
    {
      var x := sorted[i];
      assert x in sorted && sorted[..i + 1] == sorted[..i] + [x];
      if x.end < x.start {
        return None;
      }
      AbsorbKeeps(sorted[..i], m, reach, x);
      if m != [] && x.start <= m[|m| - 1].end {
        m := m[..|m| - 1] + [Span(m[|m| - 1].start, Max(x.end, m[|m| - 1].end))];
      } else {
        m := m + [x];
      }
      reach := x.start;
      assert i + 1 < |sorted| ==> Before(sorted[i], sorted[i + 1]);
    }
    assert sorted[..|sorted|] == sorted;
    SameElementsSameCover(intervals, sorted);
    SameCoverTransitive(intervals, sorted, m);
    merged := Some(m);
  }

  lemma NothingMerged(reach: int)
    ensures Merged([], [], reach)
  {
  }

  lemma SameCoverTransitive(a: seq<Span>, b: seq<Span>, c: seq<Span>)
    requires SameCover(a, b) && SameCover(b, c)
    ensures SameCover(a, c)
  {
  }

  // ----- measure -----

  /** The instants from `lo` up to `hi` at which some interval is under way. */
  function Instants(s: seq<Span>, lo: int, hi: int): set<int> {
    set t | lo <= t < hi && Covers(s, t)
  }

  /** All instants from `lo` up to `hi`. */
  function Range(lo: int, hi: int): (r: set<int>)
    ensures forall t :: t in r <==> lo <= t < hi
    ensures |r| == Max(0, hi - lo)
    decreases hi - lo
  {
    if hi <= lo then {} else Range(lo, hi - 1) + {hi - 1}
  }

  /** What one merged interval contributes. */
  function Overlap(x: Span, lo: int, hi: int): nat {
    Max(0, Min(x.end, hi) - Max(x.start, lo))
  }

  function TotalOverlap(s: seq<Span>, lo: int, hi: int): nat {
    if s == [] then 0 else TotalOverlap(s[..|s| - 1], lo, hi) + Overlap(s[|s| - 1], lo, hi)
  }

  /** For separated intervals the overlaps add up to the number of covered instants. */
  lemma {:induction false} OverlapCounts(s: seq<Span>, lo: int, hi: int)
    requires Separated(s)
    ensures TotalOverlap(s, lo, hi) == |Instants(s, lo, hi)|
  {
    hide Instants, Covers;
    if s == [] {
      NoInstants(lo, hi);
    } else {
      var init, last := s[..|s| - 1], s[|s| - 1];
      var piece := Range(Max(last.start, lo), Min(last.end, hi));
      OverlapCounts(init, lo, hi);
      InstantsAppend(init, last, lo, hi);
      assert s == init + [last];
      PieceApart(init, last, lo, hi);
      assert |Instants(init, lo, hi) + piece| == |Instants(init, lo, hi)| + |piece|;
    }
  }

  lemma NoInstants(lo: int, hi: int)
    ensures Instants([], lo, hi) == {}
  {
  }

  lemma InstantsAppend(init: seq<Span>, last: Span, lo: int, hi: int)
    ensures Instants(init + [last], lo, hi) == Instants(init, lo, hi) + Range(Max(last.start, lo), Min(last.end, hi))
  {
    hide Covers;
    forall t
      ensures Covers(init + [last], t) <==> Covers(init, t) || last.start <= t < last.end
    {
      CoverAppend(init, last, t);
    }
  }

  lemma PieceApart(init: seq<Span>, last: Span, lo: int, hi: int)
    requires forall i :: 0 <= i < |init| ==> init[i].end < last.start
    ensures Instants(init, lo, hi) !! Range(Max(last.start, lo), Min(last.end, hi))
  {
    forall t | t in Instants(init, lo, hi)
      ensures t < last.start
    {
      var x :| x in init && x.start <= t < x.end;
    }
  }

  lemma SameCoverSameInstants(a: seq<Span>, b: seq<Span>, lo: int, hi: int)
    requires SameCover(a, b)
    ensures Instants(a, lo, hi) == Instants(b, lo, hi)
  {
  }

  /** How long the intervals cover between `lo` and `hi`: the number of covered instants. */
  method IntersectionDuration(intervals: seq<Span>, lo: int, hi: int) returns (duration: Option<nat>)
    ensures duration.Some? <==> Forward(intervals)
    ensures duration.Some? ==> duration.value == |Instants(intervals, lo, hi)|
  {
    hide SameCover;
    var merged := IntervalUnion(intervals);
    if merged.None? {
      return None;
    }
    var sum := 0;
    for i := 0 to |merged.value|
      invariant sum == TotalOverlap(merged.value[..i], lo, hi)
    {
      assert merged.value[..i + 1][..i] == merged.value[..i];
      var x := merged.value[i];
      sum := sum + Max(0, Min(x.end, hi) - Max(x.start, lo));
    }
    assert merged.value[..|merged.value|] == merged.value;
    OverlapCounts(merged.value, lo, hi);
    SameCoverSameInstants(intervals, merged.value, lo, hi);
    duration := Some(sum);
  }

  // ----- what a reader may rely on -----

  lemma SubsetSize(a: set<int>, b: set<int>)
    requires a <= b
    ensures |a| <= |b|
  {
    assert b == a + (b - a);
  }

  /** Order and repetition of the activities do not matter. */
  lemma DurationIgnoresOrderAndRepetition(a: seq<Span>, b: seq<Span>, lo: int, hi: int)
    requires forall x :: x in a <==> x in b
    ensures Forward(a) <==> Forward(b)
    ensures Instants(a, lo, hi) == Instants(b, lo, hi)
  {
    SameElementsSameCover(a, b);
  }

  /** More activity, or a longer window, never counts for less. */
  lemma DurationIsMonotone(a: seq<Span>, b: seq<Span>, lo: int, hi: int, lo': int, hi': int)
    requires forall x :: x in a ==> x in b
    requires lo' <= lo && hi <= hi'
    ensures |Instants(a, lo, hi)| <= |Instants(b, lo', hi')|
  {
    assert Instants(a, lo, hi) <= Instants(b, lo', hi');
    SubsetSize(Instants(a, lo, hi), Instants(b, lo', hi'));
  }

  lemma DurationWithinWindow(s: seq<Span>, lo: int, hi: int)
    requires lo <= hi
    ensures |Instants(s, lo, hi)| <= hi - lo
  {
    assert Instants(s, lo, hi) <= Range(lo, hi);
    SubsetSize(Instants(s, lo, hi), Range(lo, hi));
  }

  /** Windows that meet add up: no instant is lost or counted twice. */
  lemma DurationAdds(s: seq<Span>, lo: int, mid: int, hi: int)
    requires lo <= mid <= hi
    ensures |Instants(s, lo, hi)| == |Instants(s, lo, mid)| + |Instants(s, mid, hi)|
  {
    assert Instants(s, lo, hi) == Instants(s, lo, mid) + Instants(s, mid, hi);
    assert Instants(s, lo, mid) !! Instants(s, mid, hi);
  }

  // ----- one complete request -----

  datatype Times = Times(
    writeBegin: int, writeComplete: int, firstByte: int, clientComplete: int,
    serverFirstRead: int, parseComplete: int, responseEnqueued: int, outputDrained: int, handlerReturn: int)

  datatype Item = Item(
    latency: int, slow: bool, submit: int, toServer: int, inServer: int, toClient: int, activity: int, residual: int,
    measured: bool)

  /** Each endpoint's own events are in order. */
  predicate InOrder(t: Times) {
    && t.writeBegin <= t.writeComplete <= t.firstByte <= t.clientComplete
    && t.serverFirstRead <= t.parseComplete <= t.responseEnqueued <= t.outputDrained <= t.handlerReturn
  }

  const SLOW := 50_000_000

  /** The record of a request none of whose events is missing: the unexplained part lies between zero
      and the latency, and the four signed spans add up to the latency although a cross-endpoint one
      may be negative. */
  method AnalyzeRequest(t: Times, verified: bool, activities: seq<Span>, measureFrom: int, measureTo: int)
    returns (item: Option<Item>)
    ensures item.Some? <==> InOrder(t) && verified && Forward(activities)
    ensures item.Some? ==>
              && item.value.latency == t.clientComplete - t.writeBegin
              && item.value.activity == |Instants(activities, t.writeBegin, t.clientComplete)|
              && item.value.activity + item.value.residual == item.value.latency
              && 0 <= item.value.residual <= item.value.latency
              && item.value.submit + item.value.toServer + item.value.inServer + item.value.toClient ==
                   item.value.latency
              && 0 <= item.value.submit <= item.value.latency && 0 <= item.value.inServer
              && (item.value.slow <==> item.value.latency >= SLOW)
              && (item.value.measured <==> measureFrom <= t.writeBegin && t.clientComplete <= measureTo)
  {
    var client := [t.writeBegin, t.writeComplete, t.firstByte, t.clientComplete];
    for i := 0 to 3
      invariant forall k :: 0 <= k < i ==> client[k] <= client[k + 1]
    {
      if client[i] > client[i + 1] {
        return None;
      }
    }
    var server := [t.serverFirstRead, t.parseComplete, t.responseEnqueued, t.outputDrained, t.handlerReturn];
    for i := 0 to 4
      invariant forall k :: 0 <= k < i ==> server[k] <= server[k + 1]
    {
      if server[i] > server[i + 1] {
        return None;
      }
    }
    if !verified {
      return None;
    }
    var total := t.clientComplete - t.writeBegin;
    var activity := IntersectionDuration(activities, t.writeBegin, t.clientComplete);
    if activity.None? {
      return None;
    }
    assert client[0] <= client[1] <= client[2] <= client[3];
    assert server[0] <= server[1] <= server[2] <= server[3] <= server[4];
    DurationWithinWindow(activities, t.writeBegin, t.clientComplete);
    item := Some(Item(total, total >= SLOW, t.writeComplete - t.writeBegin, t.serverFirstRead - t.writeComplete,
                      t.outputDrained - t.serverFirstRead, t.clientComplete - t.outputDrained, activity.value,
                      total - activity.value, measureFrom <= t.writeBegin && t.clientComplete <= measureTo));
  }
}
