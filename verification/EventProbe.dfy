/**
 The wait-event probe and its dump (`benchmark/regression/r006_event_probe.c`), and the decoder that
 reads the dump back (`benchmark/regression/r006_decode_event.py`).

 Each thread takes a slot at its first observed call and from then on writes only there.  A slot
 counts every call and keeps the slow ones; when the process ends all slots are written as
 little-endian 64-bit words.
 */
module EventProbe {
  import opened Basics

  const THREADS := 16
  const EVENTS := 2048
  const KINDS := 10
  const SLOW_NS := 5_000_000
  const MAGIC := 0x5230303657414954
  const WORD := 0x1_0000_0000_0000_0000

  // ----- recording -----

  datatype Event = Event(tid: nat, kind: nat, start: nat, elapsed: nat,
                         cpu: nat, object_: nat, caller: nat, result: int)

  datatype Slot = Slot(tid: nat, dropped: nat, calls: seq<nat>, maximum: seq<nat>, events: seq<Event>)

  const ZEROS: seq<nat> := [0, 0, 0, 0, 0, 0, 0, 0, 0, 0]
  const UNUSED := Slot(0, 0, ZEROS, ZEROS, [])

  /** One observed call, with the clock readings and the kernel's name for its thread. */
  datatype Call = Call(thread: nat, tid: nat, kind: nat, start: nat, elapsed: nat, cpu: nat, object_: nat, caller: nat,
                       result: int)

  predicate CallOk(c: Call) {
    && 0 < c.tid < WORD && 1 <= c.kind < KINDS && c.start < WORD && c.elapsed < WORD && c.cpu < WORD
    && c.object_ < WORD && c.caller < WORD && -0x8000_0000_0000_0000 <= c.result < 0x8000_0000_0000_0000
  }

  predicate SlotOk(s: Slot) {
    |s.calls| == KINDS && |s.maximum| == KINDS && |s.events| <= EVENTS
  }

  function EventOf(tid: nat, c: Call): Event {
    Event(tid, c.kind, c.start, c.elapsed, c.cpu, c.object_, c.caller, c.result)
  }

  /** A call written into the slot of its thread. */
  function Note(s: Slot, c: Call): Slot
    requires SlotOk(s) && CallOk(c)
  {
    var tid := if s.tid == 0 then c.tid else s.tid;
    var counted := s.(tid := tid, calls := s.calls[c.kind := s.calls[c.kind] + 1],
                      maximum := s.maximum[c.kind := Max(s.maximum[c.kind], c.elapsed)]);
    if c.elapsed < SLOW_NS then counted
    else if |s.events| == EVENTS then counted.(dropped := s.dropped + 1)
    else counted.(events := s.events + [EventOf(tid, c)])
  }

  datatype Probe = Probe(slots: seq<Slot>, next: nat, index: map<nat, nat>)

  function Fresh(): Probe {
    Probe(seq(THREADS, i => UNUSED), 0, map[])
  }

  predicate ProbeOk(p: Probe) {
    |p.slots| == THREADS && forall i :: 0 <= i < THREADS ==> SlotOk(p.slots[i])
  }

  function Record(p: Probe, c: Call): (r: Probe)
    requires ProbeOk(p) && CallOk(c)
    ensures ProbeOk(r)
  {
    var q := if c.thread in p.index then p else p.(index := p.index[c.thread := p.next], next := p.next + 1);
    var i := q.index[c.thread];
    if i >= THREADS then q else q.(slots := q.slots[i := Note(q.slots[i], c)])
  }

  predicate CallsOk(calls: seq<Call>) {
    forall i :: 0 <= i < |calls| ==> CallOk(calls[i])
  }

  /** The probe after any interleaving of the threads' calls. */
  function Recorded(calls: seq<Call>): (r: Probe)
    requires CallsOk(calls)
    ensures ProbeOk(r)
  {
    if calls == [] then Fresh() else Record(Recorded(calls[..|calls| - 1]), calls[|calls| - 1])
  }

  /** The recorder as an object: a slot is claimed once, every later call finds it again. */
  class Recorder {
    var slots: seq<Slot>
    var nextSlot: nat
    var index: map<nat, nat>

    ghost function View(): Probe
      reads this
    {
      Probe(slots, nextSlot, index)
    }

    constructor ()
      ensures View() == Fresh()
    {
      slots := seq(THREADS, i => UNUSED);
      nextSlot := 0;
      index := map[];
    }

    method Observe(c: Call)
      requires ProbeOk(View()) && CallOk(c)
      modifies this
      ensures View() == Record(old(View()), c)
    {
      if c.thread !in index {
        index := index[c.thread := nextSlot];
        nextSlot := nextSlot + 1;
      }
      var i := index[c.thread];
      if i >= THREADS {
        return;
      }
      var s := slots[i];
      if s.tid == 0 {
        s := s.(tid := c.tid);
      }
      s := s.(calls := s.calls[c.kind := s.calls[c.kind] + 1]);
      if c.elapsed > s.maximum[c.kind] {
        s := s.(maximum := s.maximum[c.kind := c.elapsed]);
      } else {
        assert s.maximum[c.kind := s.maximum[c.kind]] == s.maximum;
      }
      if c.elapsed >= SLOW_NS {
        if |s.events| == EVENTS {
          s := s.(dropped := s.dropped + 1);
        } else {
          s := s.(events := s.events + [EventOf(s.tid, c)]);
        }
      }
      slots := slots[i := s];
    }
  }

  // ----- the layout -----

  function Encode(w: int, n: nat): (b: seq<int>)
    ensures |b| == n
    decreases n
  {
    if n == 0 then [] else [w % 256] + Encode(w / 256, n - 1)
  }

  function Decode(b: seq<int>): int {
    if b == [] then 0 else b[0] + 256 * Decode(b[1..])
  }

  function Power(n: nat): nat {
    if n == 0 then 1 else 256 * Power(n - 1)
  }

  lemma {:induction false} DecodeEncode(w: int, n: nat)
    requires 0 <= w < Power(n)
    ensures Decode(Encode(w, n)) == w
  {
    if n > 0 {
      DecodeEncode(w / 256, n - 1);
      assert Encode(w, n)[1..] == Encode(w / 256, n - 1);
    }
  }

  lemma WordPower()
    ensures Power(8) == WORD
  {
    assert Power(2) == 65536;
    assert Power(4) == 65536 * 65536;
    assert Power(6) == 65536 * 65536 * 65536;
  }

  lemma WordRoundTrip(w: int)
    requires 0 <= w < WORD
    ensures Decode(Encode(w, 8)) == w
  {
    WordPower();
    DecodeEncode(w, 8);
  }

  function ToBytes(words: seq<int>): (b: seq<int>)
    ensures |b| == 8 * |words|
  {
    if words == [] then [] else ToBytes(words[..|words| - 1]) + Encode(words[|words| - 1], 8)
  }

  /** The 64-bit word at word offset `k`. */
  function WordAt(data: seq<int>, k: nat): int
    requires 8 * k + 8 <= |data|
  {
    Decode(data[8 * k..8 * k + 8])
  }

  lemma {:induction false} WordsReadBack(words: seq<int>, k: nat)
    requires k < |words| && 0 <= words[k] < WORD
    ensures WordAt(ToBytes(words), k) == words[k]
  {
    hide Encode, Decode;
    var n := |words| - 1;
    var bytes := ToBytes(words);
    var init := ToBytes(words[..n]);
    if k == n {
      assert bytes[8 * k..8 * k + 8] == Encode(words[n], 8);
      WordRoundTrip(words[n]);
    } else {
      WordsReadBack(words[..n], k);
      assert bytes[8 * k..8 * k + 8] == init[8 * k..8 * k + 8];
    }
  }

  /** A signed result is stored as its two's complement and read back with its sign. */
  function Unsigned(result: int): int {
    if result < 0 then result + WORD else result
  }

  function Signed(word: int): int {
    if word < 0x8000_0000_0000_0000 then word else word - WORD
  }

  lemma SignedUnsigned(result: int)
    requires -0x8000_0000_0000_0000 <= result < 0x8000_0000_0000_0000
    ensures Signed(Unsigned(result)) == result && 0 <= Unsigned(result) < WORD
  {
  }

  function EventWords(e: Event): (w: seq<int>)
    ensures |w| == 8
  {
    [e.tid, e.kind, e.start, e.elapsed, e.cpu, e.object_, e.caller, Unsigned(e.result)]
  }

  function EventsWords(events: seq<Event>): (w: seq<int>)
    ensures |w| == 8 * |events|
  {
    if events == [] then [] else EventsWords(events[..|events| - 1]) + EventWords(events[|events| - 1])
  }

  const SLOT_HEAD := 23
  const SLOT_WORDS := 16407

  function SlotWords(s: Slot): (w: seq<int>)
    requires SlotOk(s)
    ensures |w| == SLOT_WORDS
  {
    [s.tid, |s.events|, s.dropped] + s.calls + s.maximum + EventsWords(s.events) +
    seq(8 * (EVENTS - |s.events|), i => 0)
  }

  function SlotsWords(slots: seq<Slot>): (w: seq<int>)
    requires forall i :: 0 <= i < |slots| ==> SlotOk(slots[i])
    ensures |w| == SLOT_WORDS * |slots|
  {
    if slots == [] then [] else SlotsWords(slots[..|slots| - 1]) + SlotWords(slots[|slots| - 1])
  }

  const HEADER_WORDS := 8

  function Header(p: Probe, pid: nat): (w: seq<int>)
    ensures |w| == HEADER_WORDS
  {
    [MAGIC, 1, 8 * SLOT_WORDS, THREADS, EVENTS, p.next, pid, 1]
  }

  function DumpWords(p: Probe, pid: nat): (w: seq<int>)
    requires ProbeOk(p)
    ensures |w| == HEADER_WORDS + SLOT_WORDS * THREADS
  {
    Header(p, pid) + SlotsWords(p.slots)
  }

  // ----- finding things in the layout -----

  lemma {:induction false} EventAt(events: seq<Event>, j: nat, f: nat)
    requires j < |events| && f < 8
    ensures EventsWords(events)[8 * j + f] == EventWords(events[j])[f]
  {
    var n := |events| - 1;
    if j < n {
      EventAt(events[..n], j, f);
    }
  }

  lemma {:induction false} SlotAt(slots: seq<Slot>, i: nat, k: nat)
    requires forall i :: 0 <= i < |slots| ==> SlotOk(slots[i])
    requires i < |slots| && k < SLOT_WORDS
    ensures SlotsWords(slots)[SLOT_WORDS * i + k] == SlotWords(slots[i])[k]
  {
    var n := |slots| - 1;
    if i < n {
      SlotAt(slots[..n], i, k);
    }
  }

  lemma SlotHead(s: Slot)
    requires SlotOk(s)
    ensures SlotWords(s)[0] == s.tid && SlotWords(s)[1] == |s.events| && SlotWords(s)[2] == s.dropped
    ensures SlotWords(s)[3..13] == s.calls && SlotWords(s)[13..23] == s.maximum
  {
  }

  lemma SlotEvent(s: Slot, j: nat, f: nat)
    requires SlotOk(s) && j < |s.events| && f < 8
    ensures SlotWords(s)[SLOT_HEAD + 8 * j + f] == EventWords(s.events[j])[f]
  {
    EventAt(s.events, j, f);
    var head := [s.tid, |s.events|, s.dropped] + s.calls + s.maximum;
    assert |head| == SLOT_HEAD;
    assert SlotWords(s)[SLOT_HEAD + 8 * j + f] == EventsWords(s.events)[8 * j + f];
  }
}
