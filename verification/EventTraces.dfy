/** From the calls of many threads, in any interleaving, to the decoded trace. */
module EventTraces {
  import opened Basics
  import opened EventProbe
  import opened EventDecoder

  // ----- one thread's calls -----

  function Own(calls: seq<Call>, thread: nat): seq<Call> {
    if calls == [] then []
    else
      var before, last := Own(calls[..|calls| - 1], thread), calls[|calls| - 1];
      if last.thread == thread then before + [last] else before
  }

  /** The slow calls, as the events they must become. */
  function Slow(own: seq<Call>): seq<Event> {
    if own == [] then []
    else
      var before, last := Slow(own[..|own| - 1]), own[|own| - 1];
      if last.elapsed < SLOW_NS then before else before + [EventOf(last.tid, last)]
  }

  function CountKind(own: seq<Call>, kind: nat): nat {
    if own == [] then 0 else CountKind(own[..|own| - 1], kind) + if own[|own| - 1].kind == kind then 1 else 0
  }

  function Slowest(own: seq<Call>, kind: nat): nat {
    if own == [] then 0
    else
      var before, last := Slowest(own[..|own| - 1], kind), own[|own| - 1];
      if last.kind == kind then Max(before, last.elapsed) else before
  }

  /** The slot of a thread that made these calls and no others. */
  function Filled(own: seq<Call>): (s: Slot)
    requires CallsOk(own)
    ensures SlotOk(s)
  {
    if own == [] then UNUSED else Note(Filled(own[..|own| - 1]), own[|own| - 1])
  }

  /** A thread keeps its tid. */
  predicate OneTid(calls: seq<Call>) {
    forall i, j :: 0 <= i < j < |calls| && calls[i].thread == calls[j].thread ==> calls[i].tid == calls[j].tid
  }

  predicate SameTid(own: seq<Call>, tid: nat) {
    forall i :: 0 <= i < |own| ==> own[i].tid == tid
  }

  predicate Counts(s: Slot, own: seq<Call>)
    requires SlotOk(s)
  {
    forall k :: 0 <= k < KINDS ==> s.calls[k] == CountKind(own, k) && s.maximum[k] == Slowest(own, k)
  }

  lemma {:induction false} FilledCounts(own: seq<Call>)
    requires CallsOk(own)
    ensures Counts(Filled(own), own)
  {
    if own != [] {
      FilledCounts(own[..|own| - 1]);
    }
  }

  predicate Keeps(s: Slot, own: seq<Call>, tid: nat) {
    var slow := Slow(own);
    && s.tid == (if own == [] then 0 else tid)
    && s.events <= slow && s.dropped == |slow| - |s.events| && |s.events| == Min(|slow|, EVENTS)
  }

  lemma {:induction false} FilledKeeps(own: seq<Call>, tid: nat)
    requires CallsOk(own) && SameTid(own, tid) && 0 < tid
    ensures Keeps(Filled(own), own, tid)
  {
    if own != [] {
      FilledKeeps(own[..|own| - 1], tid);
      assert own[|own| - 1].tid == tid;
    }
  }

  /** What a filled slot holds: every call counted, the first slow calls in order, the rest dropped. */
  lemma FilledMeans(own: seq<Call>, tid: nat)
    requires CallsOk(own) && SameTid(own, tid) && 0 < tid
    ensures var s, slow := Filled(own), Slow(own);
            && s.tid == (if own == [] then 0 else tid)
            && s.events <= slow && s.dropped == |slow| - |s.events| && |s.events| == Min(|slow|, EVENTS)
            && (forall k :: 0 <= k < KINDS ==> s.calls[k] == CountKind(own, k) && s.maximum[k] == Slowest(own, k))
  {
    hide Filled, Slow;
    FilledCounts(own);
    FilledKeeps(own, tid);
  }

  lemma {:induction false} SlowFits(own: seq<Call>, tid: nat)
    requires CallsOk(own) && SameTid(own, tid)
    ensures forall j :: 0 <= j < |Slow(own)| ==> EventFits(Slow(own)[j], tid)
    ensures |Slow(own)| <= |own|
    ensures forall k :: 0 <= k < KINDS ==> CountKind(own, k) <= |own| && Slowest(own, k) < WORD
  {
    if own != [] {
      SlowFits(own[..|own| - 1], tid);
    }
  }

  // ----- all threads -----

  predicate Heard(calls: seq<Call>, thread: nat) {
    exists i :: 0 <= i < |calls| && calls[i].thread == thread
  }

  lemma {:induction false} OwnCalls(calls: seq<Call>, thread: nat)
    requires CallsOk(calls)
    ensures CallsOk(Own(calls, thread)) && |Own(calls, thread)| <= |calls|
    ensures Own(calls, thread) != [] <==> Heard(calls, thread)
    ensures forall i :: 0 <= i < |Own(calls, thread)| ==>
              Own(calls, thread)[i] in calls && Own(calls, thread)[i].thread == thread
  {
    if calls != [] {
      var n := |calls| - 1;
      OwnCalls(calls[..n], thread);
      assert forall c :: c in calls[..n] ==> c in calls;
      assert Heard(calls, thread) <==> Heard(calls[..n], thread) || calls[n].thread == thread;
    }
  }

  /** Slot `i` belongs to some thread. */
  predicate Taken(p: Probe, i: nat) {
    exists t :: t in p.index && p.index[t] == i
  }

  /** Slots are handed out in the order in which threads are first heard. */
  ghost predicate Indexed(calls: seq<Call>, p: Probe) {
    && (forall t :: t in p.index <==> Heard(calls, t))
    && (forall t :: t in p.index ==> p.index[t] < p.next)
    && (forall t, u :: t in p.index && u in p.index && p.index[t] == p.index[u] ==> t == u)
    && (forall i :: 0 <= i < p.next ==> Taken(p, i))
  }

  predicate SlotsFilled(calls: seq<Call>, p: Probe)
    requires CallsOk(calls)
  {
    && |p.slots| == THREADS
    && (forall t :: t in p.index && p.index[t] < THREADS ==>
          CallsOk(Own(calls, t)) && p.slots[p.index[t]] == Filled(Own(calls, t)))
    && (forall i :: p.next <= i < THREADS ==> p.slots[i] == UNUSED)
  }

  lemma HeardAppend(calls: seq<Call>, c: Call, t: nat)
    ensures Heard(calls + [c], t) <==> Heard(calls, t) || t == c.thread
  {
    var all := calls + [c];
    assert all[|calls|].thread == c.thread;
    if Heard(calls, t) {
      var i :| 0 <= i < |calls| && calls[i].thread == t;
      assert all[i].thread == t;
    }
  }

  lemma RecordIndex(calls: seq<Call>, p: Probe, c: Call)
    requires ProbeOk(p) && CallOk(c) && Indexed(calls, p)
    ensures Indexed(calls + [c], Record(p, c))
  {
    var q := Record(p, c);
    hide Note, Heard;
    forall t
      ensures Heard(calls + [c], t) <==> Heard(calls, t) || t == c.thread
    {
      HeardAppend(calls, c, t);
    }
    forall i: nat | i < q.next
      ensures Taken(q, i)
    {
      if i < p.next {
        assert Taken(p, i);
        var t :| t in p.index && p.index[t] == i;
        assert t in q.index && q.index[t] == i;
      } else {
        assert c.thread in q.index && q.index[c.thread] == i;
      }
    }
  }

  lemma {:induction false} RecordedIndex(calls: seq<Call>)
    requires CallsOk(calls)
    ensures Indexed(calls, Recorded(calls))
  {
    hide Record;
    if calls != [] {
      var n := |calls| - 1;
      RecordedIndex(calls[..n]);
      RecordIndex(calls[..n], Recorded(calls[..n]), calls[n]);
      assert calls == calls[..n] + [calls[n]];
    }
  }

  lemma OwnAppend(calls: seq<Call>, c: Call, t: nat)
    requires CallsOk(calls) && CallOk(c)
    ensures CallsOk(Own(calls, t)) && CallsOk(Own(calls + [c], t))
    ensures t != c.thread ==> Own(calls + [c], t) == Own(calls, t)
    ensures t == c.thread ==> Filled(Own(calls + [c], t)) == Note(Filled(Own(calls, t)), c)
    ensures !Heard(calls, t) ==> Filled(Own(calls, t)) == UNUSED
  {
    hide Note;
    var all := calls + [c];
    OwnCalls(calls, t);
    OwnCalls(all, t);
    assert all[..|calls|] == calls;
    if t == c.thread {
      assert Own(all, t) == Own(calls, t) + [c];
      assert Own(all, t)[..|Own(calls, t)|] == Own(calls, t);
    }
  }

  lemma RecordSlots(calls: seq<Call>, p: Probe, c: Call)
    requires ProbeOk(p) && CallsOk(calls) && CallOk(c) && Indexed(calls, p) && SlotsFilled(calls, p)
    ensures SlotsFilled(calls + [c], Record(p, c))
  {
    hide Note, Own, Filled, Heard;
    var q := Record(p, c);
    forall t | t in q.index && q.index[t] < THREADS
      ensures CallsOk(Own(calls + [c], t)) && q.slots[q.index[t]] == Filled(Own(calls + [c], t))
    {
      OwnAppend(calls, c, t);
    }
  }

  /** However the calls interleave, each slot holds what its thread alone would have left there. */
  lemma {:induction false} RecordedSlots(calls: seq<Call>)
    requires CallsOk(calls)
    ensures SlotsFilled(calls, Recorded(calls))
  {
    hide Record, Indexed;
    if calls != [] {
      var n := |calls| - 1;
      RecordedSlots(calls[..n]);
      RecordedIndex(calls[..n]);
      hide SlotsFilled;
      RecordSlots(calls[..n], Recorded(calls[..n]), calls[n]);
      assert calls == calls[..n] + [calls[n]];
    }
  }

  /** The tid of a heard thread. */
  function TidOf(calls: seq<Call>, thread: nat): nat
    requires CallsOk(calls) && Heard(calls, thread)
  {
    OwnCalls(calls, thread);
    Own(calls, thread)[0].tid
  }

  lemma OwnSameTid(calls: seq<Call>, thread: nat)
    requires CallsOk(calls) && OneTid(calls) && Heard(calls, thread)
    ensures SameTid(Own(calls, thread), TidOf(calls, thread)) && 0 < TidOf(calls, thread) < WORD
  {
    OwnCalls(calls, thread);
    var own := Own(calls, thread);
    forall i | 0 <= i < |own|
      ensures own[i].tid == own[0].tid
    {
      var a :| 0 <= a < |calls| && calls[a] == own[0];
      var b :| 0 <= b < |calls| && calls[b] == own[i];
      assert calls[a].thread == calls[b].thread;
    }
    assert CallOk(own[0]);
  }

  /** The slot of a heard thread. */
  lemma ThreadSlot(calls: seq<Call>, thread: nat)
    requires CallsOk(calls) && OneTid(calls) && |calls| < WORD && Heard(calls, thread)
    requires Recorded(calls).index.Keys >= {thread} && Recorded(calls).index[thread] < THREADS
    ensures var s := Recorded(calls).slots[Recorded(calls).index[thread]];
            var slow := Slow(Own(calls, thread));
            && SlotFits(s) && s.tid == TidOf(calls, thread) != 0
            && s.events <= slow && s.dropped == |slow| - |s.events| && |s.events| == Min(|slow|, EVENTS)
  {
    hide Recorded, Note;
    RecordedSlots(calls);
    OwnCalls(calls, thread);
    OwnSameTid(calls, thread);
    FilledMeans(Own(calls, thread), TidOf(calls, thread));
    SlowFits(Own(calls, thread), TidOf(calls, thread));
  }

  lemma RecordedFits(calls: seq<Call>, pid: nat)
    requires CallsOk(calls) && OneTid(calls) && |calls| < WORD && pid < WORD
    ensures ProbeFits(Recorded(calls), pid)
    ensures forall i :: 0 <= i < THREADS ==> (Recorded(calls).slots[i].tid != 0 <==> i < Recorded(calls).next)
  {
    hide Recorded, Note, SlotFits;
    NextCounts(calls);
    RecordedSlots(calls);
    RecordedIndex(calls);
    var p := Recorded(calls);
    forall i | 0 <= i < THREADS
      ensures SlotFits(p.slots[i]) && (p.slots[i].tid != 0 <==> i < p.next)
    {
      if i < p.next {
        assert Taken(p, i);
        var t :| t in p.index && p.index[t] == i;
        ThreadSlot(calls, t);
      } else {
        UnusedFits();
      }
    }
  }

  lemma UnusedFits()
    ensures SlotFits(UNUSED)
  {
  }

  // ----- the rows -----

  /** When the used slots come first, the rows are theirs in order. */
  lemma {:induction false} RowsOfUsed(slots: seq<Slot>, used: nat)
    requires forall i :: 0 <= i < |slots| ==> SlotOk(slots[i]) && (slots[i].tid != 0 <==> i < used)
    ensures |SlotRows(slots)| == Min(used, |slots|)
    ensures forall i :: 0 <= i < Min(used, |slots|) ==> SlotRows(slots)[i] == RowOf(slots[i])
  {
    if slots != [] {
      RowsOfUsed(slots[..|slots| - 1], used);
    }
  }

  function OfTid(rows: seq<EventRow>, tid: int): seq<EventRow> {
    if rows == [] then []
    else
      var before, last := OfTid(rows[..|rows| - 1], tid), rows[|rows| - 1];
      if last.tid == tid then before + [last] else before
  }

  lemma {:induction false} OfTidConcat(a: seq<EventRow>, b: seq<EventRow>, tid: int)
    ensures OfTid(a + b, tid) == OfTid(a, tid) + OfTid(b, tid)
  {
    if b == [] {
      assert a + b == a;
    } else {
      OfTidConcat(a, b[..|b| - 1], tid);
      assert (a + b)[..|a + b| - 1] == a + b[..|b| - 1];
    }
  }

  lemma {:induction false} OfTidOne(rows: seq<EventRow>, own: int, tid: int)
    requires forall i :: 0 <= i < |rows| ==> rows[i].tid == own
    ensures OfTid(rows, tid) == if own == tid then rows else []
  {
    if rows != [] {
      OfTidOne(rows[..|rows| - 1], own, tid);
    }
  }

  /** With distinct tids, the events of a tid are the events of its slot. */
  lemma {:induction false} EventsOfSlot(slots: seq<Slot>, k: nat, tid: nat)
    requires forall i :: 0 <= i < |slots| ==> SlotFits(slots[i])
    requires tid != 0 && (k < |slots| ==> slots[k].tid == tid)
    requires forall i :: 0 <= i < |slots| && i != k ==> slots[i].tid != tid
    ensures OfTid(AllEvents(slots), tid) == if k < |slots| then EventRows(slots[k].events) else []
  {
    if slots != [] {
      var n := |slots| - 1;
      var init, last := slots[..n], slots[n];
      if n != k {
        EventsOfSlot(init, k, tid);
      } else {
        EventsOfSlot(init, n, tid);
      }
      OfTidConcat(AllEvents(init), EventRows(last.events), tid);
      OfTidOne(EventRows(last.events), last.tid, tid);
    }
  }

  // ----- the theorem -----

  /** The threads that were heard. */
  function Threads(calls: seq<Call>): set<nat> {
    set c | c in calls :: c.thread
  }

  lemma ThreadsHeard(calls: seq<Call>, t: nat)
    ensures t in Threads(calls) <==> Heard(calls, t)
  {
    if t in Threads(calls) {
      var c :| c in calls && c.thread == t;
      var i :| 0 <= i < |calls| && calls[i] == c;
    }
    if Heard(calls, t) {
      var i :| 0 <= i < |calls| && calls[i].thread == t;
      assert calls[i] in calls;
    }
  }

  /** The probe hands out one slot number for each thread heard. */
  lemma {:induction false} NextCounts(calls: seq<Call>)
    requires CallsOk(calls)
    ensures Recorded(calls).next == |Threads(calls)| <= |calls|
  {
    hide Note;
    if calls != [] {
      var before, c := calls[..|calls| - 1], calls[|calls| - 1];
      NextCounts(before);
      RecordedIndex(before);
      ThreadsHeard(before, c.thread);
      assert calls == before + [c];
      assert Threads(calls) == Threads(before) + {c.thread} by { ThreadsAppend(before, c); }
    }
  }

  lemma ThreadsAppend(calls: seq<Call>, c: Call)
    ensures Threads(calls + [c]) == Threads(calls) + {c.thread}
  {
    assert c in calls + [c];
    forall t
      ensures t in Threads(calls + [c]) <==> t in Threads(calls) + {c.thread}
    {
      ThreadsHeard(calls, t);
      ThreadsHeard(calls + [c], t);
      HeardAppend(calls, c, t);
    }
  }

  ghost predicate Manageable(calls: seq<Call>)
    requires CallsOk(calls)
  {
    && |Threads(calls)| <= THREADS
    && (forall t :: t in Threads(calls) ==> |Slow(Own(calls, t))| <= EVENTS)
    && TidsDiffer(calls)
  }

  ghost predicate TidsDiffer(calls: seq<Call>)
    requires CallsOk(calls)
  {
    forall t, u | Heard(calls, t) && Heard(calls, u) && t != u :: TidOf(calls, t) != TidOf(calls, u)
  }

  function Trace(calls: seq<Call>, pid: nat): Option<Decoded>
    requires CallsOk(calls)
  {
    DecodeTrace(ToBytes(DumpWords(Recorded(calls), pid)))
  }

  lemma DroppedIff(calls: seq<Call>)
    requires CallsOk(calls) && OneTid(calls) && |calls| < WORD && Recorded(calls).next <= THREADS
    ensures NoneDropped(Recorded(calls).slots) <==>
            forall t :: t in Recorded(calls).index ==> |Slow(Own(calls, t))| <= EVENTS
  {
    hide Recorded, Note, SlotFits;
    RecordedSlots(calls);
    RecordedIndex(calls);
    var p := Recorded(calls);
    forall t | t in p.index
      ensures p.slots[p.index[t]].dropped == 0 <==> |Slow(Own(calls, t))| <= EVENTS
    {
      ThreadSlot(calls, t);
    }
    forall i: nat | i < THREADS
      ensures p.slots[i].dropped == 0 || Taken(p, i)
    {
      if i < p.next {
        assert Taken(p, i);
      }
    }
  }

  lemma DistinctIff(calls: seq<Call>)
    requires CallsOk(calls) && OneTid(calls) && |calls| < WORD && Recorded(calls).next <= THREADS
    ensures |SlotRows(Recorded(calls).slots)| == Recorded(calls).next
    ensures DistinctTids(SlotRows(Recorded(calls).slots)) <==> TidsDiffer(calls)
  {
    hide Recorded, Note, SlotFits, TidOf;
    RecordedIndex(calls);
    RecordedFits(calls, 0);
    var p := Recorded(calls);
    RowsOfUsed(p.slots, p.next);
    var rows := SlotRows(p.slots);
    forall t | t in p.index
      ensures rows[p.index[t]].tid == TidOf(calls, t)
    {
      ThreadSlot(calls, t);
    }
    if DistinctTids(rows) {
      forall t, u | Heard(calls, t) && Heard(calls, u) && t != u
        ensures TidOf(calls, t) != TidOf(calls, u)
      {
        var i, j := p.index[t], p.index[u];
        assert if i < j then rows[i].tid != rows[j].tid else rows[j].tid != rows[i].tid;
      }
    }
    if TidsDiffer(calls) {
      forall i, j | 0 <= i < j < |rows|
        ensures rows[i].tid != rows[j].tid
      {
        assert Taken(p, i) && Taken(p, j);
        var t :| t in p.index && p.index[t] == i;
        var u :| u in p.index && p.index[u] == j;
      }
    }
  }

  /** The trace is accepted if and only if at most sixteen threads were heard, none made more slow calls
      than a slot keeps, and no two share a tid. */
  lemma AcceptedIff(calls: seq<Call>, pid: nat)
    requires CallsOk(calls) && OneTid(calls) && |calls| < WORD && pid < WORD
    ensures Trace(calls, pid).Some? <==> Manageable(calls)
  {
    hide Recorded, Note, SlotFits, DecodeTrace, ToBytes, DumpWords, DistinctTids, SlotRows, TidOf;
    RecordedFits(calls, pid);
    DumpReadsBack(Recorded(calls), pid);
    NextCounts(calls);
    RecordedIndex(calls);
    forall t
      ensures t in Threads(calls) <==> t in Recorded(calls).index
    {
      ThreadsHeard(calls, t);
    }
    if Recorded(calls).next <= THREADS {
      DroppedIff(calls);
      DistinctIff(calls);
    }
  }

  /** An accepted trace is complete: the events of each thread are exactly its slow calls, every field,
      in the order it made them; nothing was lost to another thread or to a full slot. */
  lemma AcceptedIsComplete(calls: seq<Call>, pid: nat, thread: nat)
    requires CallsOk(calls) && OneTid(calls) && |calls| < WORD && pid < WORD
    requires Trace(calls, pid).Some? && Heard(calls, thread)
    ensures OfTid(Trace(calls, pid).value.events, TidOf(calls, thread)) == EventRows(Slow(Own(calls, thread)))
    ensures Trace(calls, pid).value.pid == pid
  {
    hide Recorded, Note, SlotFits, DecodeTrace, ToBytes, DumpWords, SlotRows, TidOf, AllEvents, EventRows;
    RecordedIndex(calls);
    RecordedFits(calls, pid);
    DumpReadsBack(Recorded(calls), pid);
    DroppedIff(calls);
    DistinctIff(calls);
    var p := Recorded(calls);
    var k, tid := p.index[thread], TidOf(calls, thread);
    ThreadSlot(calls, thread);
    forall i | 0 <= i < THREADS && i != k
      ensures p.slots[i].tid != tid
    {
      if i < p.next {
        assert Taken(p, i);
        var t :| t in p.index && p.index[t] == i;
        ThreadSlot(calls, t);
      }
    }
    EventsOfSlot(p.slots, k, tid);
    assert p.slots[k].events == Slow(Own(calls, thread));
  }
}
