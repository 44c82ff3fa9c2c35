/** The decoder of a probe dump, and that it gives back what was recorded or refuses. */
module EventDecoder {
  import opened Basics
  import opened EventProbe

  datatype SlotRow = SlotRow(tid: int, used: int, unpaired: int, calls: seq<int>, maximum: seq<int>)

  /** `kind`, times and addresses as stored; the result with its sign. */
  datatype EventRow = EventRow(tid: int, kind: int, start: int, elapsed: int, cpu: int, object_: int, caller: int,
                               result: int)

  datatype Decoded = Decoded(slots: seq<SlotRow>, events: seq<EventRow>, pid: int)

  const FILE_WORDS := HEADER_WORDS + SLOT_WORDS * THREADS

  predicate Whole(data: seq<int>) {
    |data| == 8 * FILE_WORDS
  }

  function ReadEvent(data: seq<int>, at: nat): EventRow
    requires Whole(data) && at + 8 <= FILE_WORDS
  {
    EventRow(WordAt(data, at), WordAt(data, at + 1), WordAt(data, at + 2), WordAt(data, at + 3), WordAt(data, at + 4),
             WordAt(data, at + 5), WordAt(data, at + 6), Signed(WordAt(data, at + 7)))
  }

  predicate EventAccepted(e: EventRow, tid: int) {
    e.tid == tid && 1 <= e.kind < KINDS && e.elapsed >= SLOW_NS
  }

  function DecodeEvents(data: seq<int>, at: nat, tid: int, n: nat): Option<seq<EventRow>>
    requires Whole(data) && at + 8 * n <= FILE_WORDS
  {
    if n == 0 then Some([])
    else
      var before := DecodeEvents(data, at, tid, n - 1);
      var e := ReadEvent(data, at + 8 * (n - 1));
      if before.Some? && EventAccepted(e, tid) then Some(before.value + [e]) else None
  }

  function SlotBase(i: nat): nat {
    HEADER_WORDS + SLOT_WORDS * i
  }

  function WordsAt(data: seq<int>, at: nat, n: nat): seq<int>
    requires Whole(data) && at + n <= FILE_WORDS
  {
    seq(n, i requires 0 <= i < n => WordAt(data, at + i))
  }

  function ReadSlot(data: seq<int>, i: nat): SlotRow
    requires Whole(data) && i < THREADS
  {
    var at := SlotBase(i);
    SlotRow(WordAt(data, at), WordAt(data, at + 1), WordAt(data, at + 3), WordsAt(data, at + 4, 9),
            WordsAt(data, at + 14, 9))
  }

  predicate SlotAccepted(data: seq<int>, i: nat)
    requires Whole(data) && i < THREADS
  {
    0 <= WordAt(data, SlotBase(i) + 1) <= EVENTS && WordAt(data, SlotBase(i) + 2) == 0
  }

  function DecodeSlots(data: seq<int>, n: nat): Option<(seq<SlotRow>, seq<EventRow>)>
    requires Whole(data) && n <= THREADS
  {
    if n == 0 then Some(([], []))
    else
      var before := DecodeSlots(data, n - 1);
      if before.None? || !SlotAccepted(data, n - 1) then None
      else
        var row := ReadSlot(data, n - 1);
        if row.tid == 0 then before
        else
          var events := DecodeEvents(data, SlotBase(n - 1) + SLOT_HEAD, row.tid, row.used);
          if events.None? then None else Some((before.value.0 + [row], before.value.1 + events.value))
  }

  predicate DistinctTids(slots: seq<SlotRow>) {
    forall i, j :: 0 <= i < j < |slots| ==> slots[i].tid != slots[j].tid
  }

  predicate HeaderAccepted(data: seq<int>) {
    && Whole(data)
    && WordAt(data, 0) == MAGIC && WordAt(data, 1) == 1 && WordAt(data, 2) == 8 * SLOT_WORDS
    && WordAt(data, 3) == THREADS && WordAt(data, 4) == EVENTS && WordAt(data, 5) <= THREADS
  }

  function DecodeTrace(data: seq<int>): Option<Decoded> {
    if !HeaderAccepted(data) then None
    else
      var all := DecodeSlots(data, THREADS);
      if all.None? || |all.value.0| != WordAt(data, 5) || !DistinctTids(all.value.0) then None
      else Some(Decoded(all.value.0, all.value.1, WordAt(data, 6)))
  }

  method ReadEvents(data: seq<int>, at: nat, tid: int, n: nat) returns (events: Option<seq<EventRow>>)
    requires Whole(data) && at + 8 * n <= FILE_WORDS
    ensures events == DecodeEvents(data, at, tid, n)
  {
    hide WordAt, ReadEvent;
    var own: seq<EventRow> := [];
    for j := 0 to n
      invariant DecodeEvents(data, at, tid, j) == Some(own)
    {
      var e := ReadEvent(data, at + 8 * j);
      if !EventAccepted(e, tid) {
        EventsRefused(data, at, tid, j + 1, n);
        return None;
      }
      own := own + [e];
    }
    events := Some(own);
  }

  /** The decoder's loop over the slots. */
  method ReadTrace(data: seq<int>) returns (decoded: Option<Decoded>)
    ensures decoded == DecodeTrace(data)
  {
    hide WordAt, WordsAt, SlotAccepted, DecodeEvents;
    if !HeaderAccepted(data) {
      return None;
    }
    var slots: seq<SlotRow>, events: seq<EventRow> := [], [];
    for i := 0 to THREADS
      invariant DecodeSlots(data, i) == Some((slots, events))
    {
      if !SlotAccepted(data, i) {
        Refused(data, i + 1);
        return None;
      }
      AcceptedUsed(data, i);
      var row := ReadSlot(data, i);
      if row.tid != 0 {
        var own := ReadEvents(data, SlotBase(i) + SLOT_HEAD, row.tid, row.used);
        if own.None? {
          Refused(data, i + 1);
          return None;
        }
        slots, events := slots + [row], events + own.value;
      }
    }
    if |slots| != WordAt(data, 5) || !DistinctTids(slots) {
      return None;
    }
    decoded := Some(Decoded(slots, events, WordAt(data, 6)));
  }

  lemma AcceptedUsed(data: seq<int>, i: nat)
    requires Whole(data) && i < THREADS && SlotAccepted(data, i)
    ensures 0 <= ReadSlot(data, i).used <= EVENTS
  {
  }

  lemma {:induction false} EventsRefused(data: seq<int>, at: nat, tid: int, n: nat, m: nat)
    requires Whole(data) && n <= m && at + 8 * m <= FILE_WORDS && DecodeEvents(data, at, tid, n).None?
    ensures DecodeEvents(data, at, tid, m).None?
  {
    hide WordAt, ReadEvent;
    if n < m {
      EventsRefused(data, at, tid, n, m - 1);
    }
  }

  lemma {:induction false} RefusedFrom(data: seq<int>, n: nat, m: nat)
    requires Whole(data) && n <= m <= THREADS && DecodeSlots(data, n).None?
    ensures DecodeSlots(data, m).None?
  {
    hide WordAt, ReadSlot, SlotAccepted, DecodeEvents;
    if n < m {
      RefusedFrom(data, n, m - 1);
    }
  }

  lemma Refused(data: seq<int>, n: nat)
    requires HeaderAccepted(data) && n <= THREADS && DecodeSlots(data, n).None?
    ensures DecodeTrace(data).None?
  {
    RefusedFrom(data, n, THREADS);
  }

  // ----- reading back a dump -----

  predicate EventFits(e: Event, tid: nat) {
    && e.tid == tid && 1 <= e.kind < KINDS && SLOW_NS <= e.elapsed < WORD && e.start < WORD && e.cpu < WORD
    && e.object_ < WORD && e.caller < WORD && -0x8000_0000_0000_0000 <= e.result < 0x8000_0000_0000_0000
  }

  /** Every number of the slot fits its 64-bit field. */
  predicate SlotFits(s: Slot) {
    && SlotOk(s) && s.tid < WORD && s.dropped < WORD
    && (forall k :: 0 <= k < KINDS ==> s.calls[k] < WORD && s.maximum[k] < WORD)
    && (forall j :: 0 <= j < |s.events| ==> EventFits(s.events[j], s.tid))
    && (s.tid == 0 ==> s.dropped == 0)
  }

  predicate ProbeFits(p: Probe, pid: nat) {
    && |p.slots| == THREADS && p.next < WORD && pid < WORD
    && forall i :: 0 <= i < THREADS ==> SlotFits(p.slots[i])
  }

  function RowOf(s: Slot): SlotRow
    requires SlotOk(s)
  {
    SlotRow(s.tid, |s.events|, s.calls[0], s.calls[1..], s.maximum[1..])
  }

  function EventRowOf(e: Event): EventRow {
    EventRow(e.tid, e.kind, e.start, e.elapsed, e.cpu, e.object_, e.caller, e.result)
  }

  function EventRows(events: seq<Event>): (rows: seq<EventRow>)
    ensures |rows| == |events|
  {
    seq(|events|, i requires 0 <= i < |events| => EventRowOf(events[i]))
  }

  function SlotRows(slots: seq<Slot>): seq<SlotRow>
    requires forall i :: 0 <= i < |slots| ==> SlotOk(slots[i])
  {
    if slots == [] then []
    else
      var before, last := SlotRows(slots[..|slots| - 1]), slots[|slots| - 1];
      if last.tid == 0 then before else before + [RowOf(last)]
  }

  function AllEvents(slots: seq<Slot>): seq<EventRow> {
    if slots == [] then []
    else
      var before, last := AllEvents(slots[..|slots| - 1]), slots[|slots| - 1];
      if last.tid == 0 then before else before + EventRows(last.events)
  }

  lemma SlotWordFits(s: Slot, k: nat)
    requires SlotFits(s) && k < SLOT_WORDS
    ensures 0 <= SlotWords(s)[k] < WORD
  {
    var body := k - SLOT_HEAD;
    if k < SLOT_HEAD {
      SlotHead(s);
      if 3 <= k < 13 {
        assert SlotWords(s)[3..13][k - 3] == SlotWords(s)[k];
      } else if 13 <= k {
        assert SlotWords(s)[13..23][k - 13] == SlotWords(s)[k];
      }
    } else if body < 8 * |s.events| {
      var j, f := body / 8, body % 8;
      SlotEvent(s, j, f);
      SignedUnsigned(s.events[j].result);
      assert EventFits(s.events[j], s.tid);
    }
  }

  /** A word of the file is the word of the layout. */
  lemma DumpAt(p: Probe, pid: nat, i: nat, k: nat)
    requires ProbeFits(p, pid) && i < THREADS && k < SLOT_WORDS
    ensures WordAt(ToBytes(DumpWords(p, pid)), SlotBase(i) + k) == SlotWords(p.slots[i])[k]
  {
    hide SlotWords, SlotFits, ToBytes, WordAt;
    forall i | 0 <= i < THREADS
      ensures SlotOk(p.slots[i])
    {
      FitsIsOk(p.slots[i]);
    }
    SlotAt(p.slots, i, k);
    SlotWordFits(p.slots[i], k);
    WordsReadBack(DumpWords(p, pid), SlotBase(i) + k);
  }

  lemma FitsIsOk(s: Slot)
    requires SlotFits(s)
    ensures SlotOk(s)
  {
  }

  lemma DumpHeader(p: Probe, pid: nat)
    requires ProbeFits(p, pid)
    ensures var data := ToBytes(DumpWords(p, pid));
            && Whole(data) && (HeaderAccepted(data) <==> p.next <= THREADS)
            && WordAt(data, 5) == p.next && WordAt(data, 6) == pid
  {
    hide SlotsWords, ToBytes, WordAt;
    var words := DumpWords(p, pid);
    WordsReadBack(words, 0);
    WordsReadBack(words, 1);
    WordsReadBack(words, 2);
    WordsReadBack(words, 3);
    WordsReadBack(words, 4);
    WordsReadBack(words, 5);
    WordsReadBack(words, 6);
  }

  lemma EventReadsBack(p: Probe, pid: nat, i: nat, j: nat)
    requires ProbeFits(p, pid) && i < THREADS && j < |p.slots[i].events|
    requires Whole(ToBytes(DumpWords(p, pid)))
    ensures ReadEvent(ToBytes(DumpWords(p, pid)), SlotBase(i) + SLOT_HEAD + 8 * j) == EventRowOf(p.slots[i].events[j])
  {
    hide ToBytes, WordAt, SlotWords, DumpWords;
    var s := p.slots[i];
    var at := SLOT_HEAD + 8 * j;
    SlotEvent(s, j, 0);
    SlotEvent(s, j, 1);
    SlotEvent(s, j, 2);
    SlotEvent(s, j, 3);
    SlotEvent(s, j, 4);
    SlotEvent(s, j, 5);
    SlotEvent(s, j, 6);
    SlotEvent(s, j, 7);
    DumpAt(p, pid, i, at);
    DumpAt(p, pid, i, at + 1);
    DumpAt(p, pid, i, at + 2);
    DumpAt(p, pid, i, at + 3);
    DumpAt(p, pid, i, at + 4);
    DumpAt(p, pid, i, at + 5);
    DumpAt(p, pid, i, at + 6);
    DumpAt(p, pid, i, at + 7);
    assert EventFits(s.events[j], s.tid);
    SignedUnsigned(s.events[j].result);
  }

  lemma {:induction false} EventsReadBack(p: Probe, pid: nat, i: nat, n: nat)
    requires ProbeFits(p, pid) && i < THREADS && n <= |p.slots[i].events|
    requires Whole(ToBytes(DumpWords(p, pid)))
    ensures DecodeEvents(ToBytes(DumpWords(p, pid)), SlotBase(i) + SLOT_HEAD, p.slots[i].tid, n) ==
            Some(EventRows(p.slots[i].events[..n]))
  {
    hide ToBytes, WordAt, DumpWords, ReadEvent;
    if n > 0 {
      var events := p.slots[i].events;
      EventsReadBack(p, pid, i, n - 1);
      EventReadsBack(p, pid, i, n - 1);
      assert EventFits(events[n - 1], p.slots[i].tid);
      assert EventRows(events[..n]) == EventRows(events[..n - 1]) + [EventRowOf(events[n - 1])];
    }
  }

  lemma SlotReadsBack(p: Probe, pid: nat, i: nat)
    requires ProbeFits(p, pid) && i < THREADS && Whole(ToBytes(DumpWords(p, pid)))
    ensures ReadSlot(ToBytes(DumpWords(p, pid)), i) == RowOf(p.slots[i])
    ensures SlotAccepted(ToBytes(DumpWords(p, pid)), i) <==> p.slots[i].dropped == 0
  {
    hide ToBytes, WordAt, SlotWords, DumpWords;
    var s, data := p.slots[i], ToBytes(DumpWords(p, pid));
    SlotHead(s);
    DumpAt(p, pid, i, 0);
    DumpAt(p, pid, i, 1);
    DumpAt(p, pid, i, 2);
    DumpAt(p, pid, i, 3);
    assert SlotWords(s)[3..13][0] == SlotWords(s)[3];
    forall k | 0 <= k < 9
      ensures WordsAt(data, SlotBase(i) + 4, 9)[k] == s.calls[1..][k]
      ensures WordsAt(data, SlotBase(i) + 14, 9)[k] == s.maximum[1..][k]
    {
      DumpAt(p, pid, i, 4 + k);
      DumpAt(p, pid, i, 14 + k);
      assert SlotWords(s)[3..13][k + 1] == SlotWords(s)[4 + k];
      assert SlotWords(s)[13..23][k + 1] == SlotWords(s)[14 + k];
    }
    assert WordsAt(data, SlotBase(i) + 4, 9) == s.calls[1..];
    assert WordsAt(data, SlotBase(i) + 14, 9) == s.maximum[1..];
  }

  predicate NoneDropped(slots: seq<Slot>) {
    forall i :: 0 <= i < |slots| ==> slots[i].dropped == 0
  }

  lemma {:induction false} SlotsReadBack(p: Probe, pid: nat, n: nat)
    requires ProbeFits(p, pid) && n <= THREADS && Whole(ToBytes(DumpWords(p, pid)))
    ensures DecodeSlots(ToBytes(DumpWords(p, pid)), n) ==
            if NoneDropped(p.slots[..n]) then Some((SlotRows(p.slots[..n]), AllEvents(p.slots[..n]))) else None
  {
    hide ToBytes, WordAt, DumpWords, ReadSlot, SlotAccepted, DecodeEvents, SlotFits;
    forall i | 0 <= i < THREADS
      ensures SlotOk(p.slots[i])
    {
      FitsIsOk(p.slots[i]);
    }
    if n > 0 {
      SlotsReadBack(p, pid, n - 1);
      SlotReadsBack(p, pid, n - 1);
      EventsReadBack(p, pid, n - 1, |p.slots[n - 1].events|);
      var s := p.slots[n - 1];
      assert s.events[..|s.events|] == s.events;
      assert p.slots[..n][..n - 1] == p.slots[..n - 1];
      assert forall i :: 0 <= i < n - 1 ==> p.slots[..n - 1][i] == p.slots[..n][i];
      assert NoneDropped(p.slots[..n]) <==> NoneDropped(p.slots[..n - 1]) && s.dropped == 0;
    }
  }

  /** Decoding a dump gives back the recorded slots and events field for field, and refuses exactly
      when events were dropped, more threads came than there are slots, or tids repeat. */
  lemma DumpReadsBack(p: Probe, pid: nat)
    requires ProbeFits(p, pid)
    ensures DecodeTrace(ToBytes(DumpWords(p, pid))) ==
            if p.next <= THREADS && NoneDropped(p.slots) &&
               |SlotRows(p.slots)| == p.next && DistinctTids(SlotRows(p.slots))
            then Some(Decoded(SlotRows(p.slots), AllEvents(p.slots), pid)) else None
  {
    hide ToBytes, WordAt, DumpWords, HeaderAccepted, DecodeSlots, SlotFits, SlotRows, AllEvents;
    DumpHeader(p, pid);
    SlotsReadBack(p, pid, THREADS);
    assert p.slots[..THREADS] == p.slots;
  }

  // ----- a dump that was cut short -----

  /** Writing the file: each system call may take any positive part, and one that fails ends it. */
  method WriteAll(data: seq<int>, amounts: seq<int>) returns (file: seq<int>)
    requires forall i :: 0 <= i < |amounts| ==> amounts[i] <= |data|
    ensures file <= data
    ensures |data| <= |amounts| && (forall i :: 0 <= i < |amounts| ==> amounts[i] > 0) ==> file == data
  {
    var left := data;
    file := [];
    var i := 0;
    while left != [] && i < |amounts|
      invariant file + left == data && i <= |amounts|
      invariant (forall k :: 0 <= k < i ==> amounts[k] > 0) ==> |file| >= Min(i, |data|)
    {
      var n := Min(amounts[i], |left|);
      if n <= 0 {
        return;
      }
      file, left := file + left[..n], left[n..];
      i := i + 1;
    }
  }

  /** Nothing but a complete file is accepted. */
  lemma CutFileIsRefused(data: seq<int>, file: seq<int>)
    requires Whole(data) && file < data
    ensures DecodeTrace(file).None?
  {
  }
}
