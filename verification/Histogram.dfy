/**
 The coordinated-omission correction of a latency histogram, replayed in place, and the percentile
 read from it (`benchmark/regression/r006_histogram.py`).

 Bucket `i` counts the responses that took `i` microseconds.  A response that took `n` with one
 request expected every `e` hides requests that would have taken `n - e`, `n - 2e`, ...; the
 correction adds them, down to but not including `e`.
 */
module Histogram {
  /** The buckets are 64-bit: a sum that does not fit raises. */
  const BUCKET_LIMIT := 0x1_0000_0000_0000_0000

  function Sum(s: seq<nat>): nat {
    if s == [] then 0 else Sum(s[..|s| - 1]) + s[|s| - 1]
  }

  /** What bucket `m` gains: one for each response at `m + e`, `m + 2e`, ... up to `top`. */
  function Gain(raw: seq<nat>, e: nat, top: int, m: nat): nat
    requires e > 0 && top < |raw|
    decreases top - m
  {
    if m + e > top then 0 else raw[m + e] + Gain(raw, e, top, m + e)
  }

  function CorrectedAt(raw: seq<nat>, e: nat, top: int, m: nat): nat
    requires e > 0 && top < |raw| && m < |raw|
  {
    raw[m] + if m > e then Gain(raw, e, top, m) else 0
  }

  function Corrected(raw: seq<nat>, e: nat, top: int): seq<nat>
    requires e > 0 && top < |raw|
  {
    seq(|raw|, m requires 0 <= m < |raw| => CorrectedAt(raw, e, top, m))
  }

  // ----- sums -----

  lemma {:induction false} SumUpdate(s: seq<nat>, i: nat, v: nat)
    requires i < |s|
    ensures Sum(s[i := v]) == Sum(s) - s[i] + v
  {
    var last := |s| - 1;
    if i == last {
      assert s[i := v][..last] == s[..last];
    } else {
      SumUpdate(s[..last], i, v);
      assert s[i := v][..last] == s[..last][i := v];
    }
  }

  lemma {:induction false} SumSplit(s: seq<nat>, i: nat)
    requires i <= |s|
    ensures Sum(s) == Sum(s[..i]) + Sum(s[i..])
  {
    if i == |s| {
      assert s[..i] == s && s[i..] == [];
    } else {
      SumSplit(s[..|s| - 1], i);
      assert s[..|s| - 1][..i] == s[..i] && s[..|s| - 1][i..] == s[i..][..|s[i..]| - 1];
    }
  }

  lemma {:induction false} SumZero(s: seq<nat>)
    requires forall i :: 0 <= i < |s| ==> s[i] == 0
    ensures Sum(s) == 0
  {
    if s != [] {
      SumZero(s[..|s| - 1]);
    }
  }

  lemma SumAtLeast(s: seq<nat>, i: nat)
    requires i < |s|
    ensures Sum(s) >= s[i]
  {
    SumSplit(s, i + 1);
    assert s[..i + 1][..i] == s[..i];
  }

  // ----- the correction -----

  /** `d` is a whole number of steps. */
  predicate OnStride(d: nat, e: nat)
    requires e > 0
  {
    d == 0 || (d >= e && OnStride(d - e, e))
  }

  /** Moving the top up to `n` adds the responses at `n` to the buckets a whole number of steps below. */
  lemma {:induction false} GainStep(raw: seq<nat>, e: nat, n: nat, m: nat)
    requires e > 0 && m < n < |raw|
    ensures Gain(raw, e, n, m) == Gain(raw, e, n - 1, m) + if OnStride(n - m, e) then raw[n] else 0
    decreases n - m
  {
    if m + e < n {
      GainStep(raw, e, n, m + e);
    }
  }

  lemma {:induction false} OffStride(d: nat, e: nat, r: nat)
    requires e > 0 && OnStride(d, e) && 0 < r < e
    ensures !OnStride(d + r, e)
  {
    if d > 0 {
      OffStride(d - e, e, r);
    }
  }

  lemma {:induction false} GainGrows(raw: seq<nat>, e: nat, low: int, top: int, m: nat)
    requires e > 0 && low <= top < |raw|
    ensures Gain(raw, e, low, m) <= Gain(raw, e, top, m)
    decreases top - m
  {
    if m + e <= low {
      GainGrows(raw, e, low, top, m + e);
    }
  }

  /** Bucket `j` while the responses at `n` are being spread and `m` is next: above `m` done, else not. */
  function Midway(raw: seq<nat>, e: nat, n: nat, m: int, j: nat): nat
    requires e > 0 && 0 < n < |raw| && j < |raw|
  {
    raw[j] + if j <= e then 0 else if j > m then Gain(raw, e, n, j) else Gain(raw, e, n - 1, j)
  }

  predicate MidwayAll(a: seq<nat>, raw: seq<nat>, e: nat, n: nat, m: int)
    requires e > 0 && 0 < n < |raw|
  {
    |a| == |raw| && forall j :: 0 <= j < |raw| ==> a[j] == Midway(raw, e, n, m, j)
  }

  lemma MidwayStart(a: seq<nat>, raw: seq<nat>, e: nat, n: nat)
    requires e > 0 && 0 < n < |raw| && a == Corrected(raw, e, n - 1)
    ensures MidwayAll(a, raw, e, n, n - e)
  {
  }

  /** One step of the inner loop. */
  lemma MidwayStep(a: seq<nat>, raw: seq<nat>, e: nat, n: nat, m: nat)
    requires e > 0 && 0 < n < |raw| && e < m < n && OnStride(n - m, e) && MidwayAll(a, raw, e, n, m)
    ensures a[m] + raw[n] == CorrectedAt(raw, e, n, m)
    ensures MidwayAll(a[m := a[m] + raw[n]], raw, e, n, m - e)
    ensures OnStride(n - (m - e), e)
  {
    GainStep(raw, e, n, m);
    var spread := a[m := a[m] + raw[n]];
    forall j | 0 <= j < |raw|
      ensures spread[j] == Midway(raw, e, n, m - e, j)
    {
      if e < j && m - e < j < m {
        GainStep(raw, e, n, j);
        OffStride(n - m, e, m - j);
      }
    }
  }

  /** When the inner loop stops, nothing below it is left to gain. */
  lemma MidwayEnd(a: seq<nat>, raw: seq<nat>, e: nat, n: nat, m: int)
    requires e > 0 && 0 < n < |raw| && m <= e && MidwayAll(a, raw, e, n, m)
    ensures a == Corrected(raw, e, n)
  {
  }

  lemma NothingToSpread(a: seq<nat>, raw: seq<nat>, e: nat, n: nat)
    requires e > 0 && 0 < n < |raw| && raw[n] == 0 && a == Corrected(raw, e, n - 1)
    ensures a == Corrected(raw, e, n)
  {
    forall m | 0 <= m < |raw|
      ensures CorrectedAt(raw, e, n, m) == CorrectedAt(raw, e, n - 1, m)
    {
      if m < n {
        GainStep(raw, e, n, m);
      }
    }
  }

  lemma NoCorrectionYet(raw: seq<nat>, e: nat, top: int)
    requires e > 0 && top < |raw| && top < 2 * e
    ensures Corrected(raw, e, top) == raw
  {
  }

  predicate Fits(raw: seq<nat>, e: nat, top: int)
    requires e > 0 && top < |raw|
  {
    forall m :: 0 <= m < |raw| ==> CorrectedAt(raw, e, top, m) < BUCKET_LIMIT
  }

  /** The replay loop: in place it computes the closed form, and the running count stays the sum of
      all buckets; it stops part-way exactly when some corrected bucket does not fit. */
  method Correct(bins: array<nat>, e: nat, top: nat, total: nat) returns (ok: bool, count: nat)
    requires e > 0 && top < bins.Length && total == Sum(bins[..])
    requires forall i :: 0 <= i < bins.Length ==> bins[i] < BUCKET_LIMIT
    modifies bins
    ensures ok <==> Fits(old(bins[..]), e, top)
    ensures ok ==> bins[..] == Corrected(old(bins[..]), e, top)
    ensures count == Sum(bins[..])
  {
    ghost var raw := bins[..];
    count := total;
    var n := 2 * e;
    NoCorrectionYet(raw, e, if n <= top then n - 1 else top);
    while n <= top
      invariant 2 * e <= n
      invariant bins[..] == Corrected(raw, e, if n <= top then n - 1 else top)
      invariant count == Sum(bins[..])
      invariant forall i :: 0 <= i < bins.Length ==> bins[i] < BUCKET_LIMIT
    {
      var fits;
      fits, count := Spread(bins, e, n, count, raw);
      if !fits {
        ghost var m :| 0 <= m < |raw| && CorrectedAt(raw, e, n, m) >= BUCKET_LIMIT;
        GainGrows(raw, e, n, top, m);
        assert CorrectedAt(raw, e, top, m) >= BUCKET_LIMIT;
        return false, count;
      }
      n := n + 1;
    }
    assert forall m :: 0 <= m < |raw| ==> bins[..][m] == CorrectedAt(raw, e, top, m);
    ok := true;
  }

  /** The inner loop: the responses at `n` are added one step apart below `n`. */
  method Spread(bins: array<nat>, e: nat, n: nat, total: nat, ghost raw: seq<nat>) returns (ok: bool, count: nat)
    requires e > 0 && 2 * e <= n < bins.Length == |raw|
    requires bins[..] == Corrected(raw, e, n - 1) && total == Sum(bins[..])
    requires forall i :: 0 <= i < bins.Length ==> bins[i] < BUCKET_LIMIT
    modifies bins
    ensures ok <==> Fits(raw, e, n)
    ensures ok ==> bins[..] == Corrected(raw, e, n)
    ensures count == Sum(bins[..])
    ensures forall i :: 0 <= i < bins.Length ==> bins[i] < BUCKET_LIMIT
  {
    hide Corrected, Gain, Sum, MidwayAll, Fits;
    count := total;
    var amount := bins[n];
    assert amount == raw[n] by { UnspreadTop(raw, e, n); }
    var m: int := n - e;
    if amount == 0 {
      NothingToSpread(bins[..], raw, e, n);
      ok := true;
      FitsIffBounded(bins[..], raw, e, n);
      return;
    }
    MidwayStart(bins[..], raw, e, n);
    while m > e
      invariant m < n && OnStride(n - m, e)
      invariant MidwayAll(bins[..], raw, e, n, m)
      invariant count == Sum(bins[..])
      invariant forall i :: 0 <= i < bins.Length ==> bins[i] < BUCKET_LIMIT
    {
      MidwayStep(bins[..], raw, e, n, m);
      if bins[m] + amount >= BUCKET_LIMIT {
        Overflows(raw, e, n, m);
        return false, count;
      }
      SumUpdate(bins[..], m, bins[m] + amount);
      ghost var before := bins[..];
      bins[m] := bins[m] + amount;
      assert bins[..] == before[m := bins[m]];
      count := count + amount;
      m := m - e;
    }
    MidwayEnd(bins[..], raw, e, n, m);
    FitsIffBounded(bins[..], raw, e, n);
    ok := true;
  }

  lemma Overflows(raw: seq<nat>, e: nat, n: nat, m: nat)
    requires e > 0 && m < n < |raw| && CorrectedAt(raw, e, n, m) >= BUCKET_LIMIT
    ensures !Fits(raw, e, n)
  {
  }

  lemma UnspreadTop(raw: seq<nat>, e: nat, n: nat)
    requires e > 0 && 0 < n < |raw|
    ensures Corrected(raw, e, n - 1)[n] == raw[n]
  {
  }

  lemma FitsIffBounded(a: seq<nat>, raw: seq<nat>, e: nat, n: nat)
    requires e > 0 && n < |raw| && a == Corrected(raw, e, n)
    requires forall i :: 0 <= i < |a| ==> a[i] < BUCKET_LIMIT
    ensures Fits(raw, e, n)
  {
    forall m | 0 <= m < |raw|
      ensures CorrectedAt(raw, e, n, m) < BUCKET_LIMIT
    {
      assert a[m] == CorrectedAt(raw, e, n, m);
    }
  }

  // ----- the percentile -----

  datatype Header = Header(count: nat, limit: nat, minimum: nat, maximum: nat)

  /** A capture holds at most 16 MiB of buckets. */
  const MAX_BUCKETS := 2097152

  /** What `decode` and the capture accept. */
  predicate Decodes(h: Header, bins: seq<nat>) {
    |bins| == h.limit <= MAX_BUCKETS && Sum(bins) == h.count && h.minimum <= h.maximum < h.limit
  }

  function Rank(count: nat, p: nat): nat {
    count * p / 100 + 1
  }

  /** The responses from the recorded minimum up to and including `i`. */
  function Reached(h: Header, bins: seq<nat>, i: nat): nat
    requires h.minimum <= i < |bins|
  {
    Sum(bins[h.minimum..i + 1])
  }

  lemma SumNext(s: seq<nat>, low: nat, i: nat)
    requires low <= i < |s|
    ensures Sum(s[low..i + 1]) == Sum(s[low..i]) + s[i]
  {
    assert s[low..i + 1][..i - low] == s[low..i];
  }

  lemma SumWider(s: seq<nat>, low: nat, i: nat, high: nat)
    requires low <= i <= high <= |s|
    ensures Sum(s[low..i]) <= Sum(s[low..high])
  {
    SumSplit(s[low..high], i - low);
    assert s[low..high][..i - low] == s[low..i];
  }

  /** The scan: the least bucket from minimum to maximum that reaches the rank, if any does. */
  method Percentile(h: Header, bins: seq<nat>, p: nat) returns (found: bool, bucket: nat)
    requires Decodes(h, bins)
    ensures found <==> Reached(h, bins, h.maximum) >= Rank(h.count, p)
    ensures found ==>
              && h.minimum <= bucket <= h.maximum && Reached(h, bins, bucket) >= Rank(h.count, p)
              && forall i :: h.minimum <= i < bucket ==> Reached(h, bins, i) < Rank(h.count, p)
    ensures !found ==> bucket == 0
  {
    hide Sum;
    var rank := h.count * p / 100 + 1;
    var total := 0;
    assert Sum(bins[h.minimum..h.minimum]) == 0 by { SumZero(bins[h.minimum..h.minimum]); }
    for i := h.minimum to h.maximum + 1
      invariant total == Sum(bins[h.minimum..i]) < rank
      invariant forall k :: h.minimum <= k < i ==> Reached(h, bins, k) < rank
    {
      SumNext(bins, h.minimum, i);
      total := total + bins[i];
      if total >= rank {
        SumWider(bins, h.minimum, i + 1, h.maximum + 1);
        return true, i;
      }
    }
    found, bucket := false, 0;
  }

  /** All responses lie between minimum and maximum. */
  predicate Inside(h: Header, bins: seq<nat>) {
    forall i :: 0 <= i < |bins| && bins[i] > 0 ==> h.minimum <= i <= h.maximum
  }

  lemma InsideIsReached(h: Header, bins: seq<nat>)
    requires Decodes(h, bins) && Inside(h, bins)
    ensures Reached(h, bins, h.maximum) == h.count
  {
    SumSplit(bins, h.minimum);
    var upper := bins[h.minimum..];
    var width := h.maximum + 1 - h.minimum;
    SumSplit(upper, width);
    assert upper[..width] == bins[h.minimum..h.maximum + 1];
    SumZero(bins[..h.minimum]);
    SumZero(upper[width..]);
  }

  lemma RankWithin(count: nat, p: nat)
    requires count > 0 && p < 100
    ensures Rank(count, p) <= count
  {
    assert count * p <= count * 99;
    assert count * p < count * 100;
  }

  /** A percentile below the hundredth is always found when every response lies inside. */
  lemma InsideIsFound(h: Header, bins: seq<nat>, p: nat)
    requires Decodes(h, bins) && Inside(h, bins) && h.count > 0 && p < 100
    ensures Reached(h, bins, h.maximum) >= Rank(h.count, p)
  {
    InsideIsReached(h, bins);
    RankWithin(h.count, p);
  }

  /** The scan falls through exactly when too many responses lie outside the recorded range. */
  lemma FallsThroughIff(h: Header, bins: seq<nat>, p: nat)
    requires Decodes(h, bins)
    ensures Reached(h, bins, h.maximum) < Rank(h.count, p) <==>
            h.count - h.count * p / 100 <= Sum(bins[..h.minimum]) + Sum(bins[h.maximum + 1..])
  {
    SumSplit(bins, h.minimum);
    var upper := bins[h.minimum..];
    var width := h.maximum + 1 - h.minimum;
    SumSplit(upper, width);
    assert upper[..width] == bins[h.minimum..h.maximum + 1];
    assert upper[width..] == bins[h.maximum + 1..];
  }

  // ----- the percentile after the correction -----

  /** The corrected histogram keeps the recorded range of the raw one. */
  function CorrectedHeader(h: Header, raw: seq<nat>, e: nat): Header
    requires e > 0 && Decodes(h, raw)
  {
    h.(count := Sum(Corrected(raw, e, h.maximum)))
  }

  const CONNECTIONS := 128

  /** The verification gets as far as the percentile: there is at least one response for each connection,
      and the interval is the duration over the responses of one connection. */
  predicate Reaches(h: Header, e: nat, duration: nat) {
    h.count >= CONNECTIONS && e == duration / (h.count / CONNECTIONS)
  }

  /** The percentile of the corrected histogram is found. */
  predicate Found(h: Header, raw: seq<nat>, e: nat, p: nat)
    requires e > 0 && Decodes(h, raw)
  {
    Reached(CorrectedHeader(h, raw, e), Corrected(raw, e, h.maximum), h.maximum) >=
      Rank(CorrectedHeader(h, raw, e).count, p)
  }

  /** The recorded minimum and maximum are those of responses. */
  predicate Attains(h: Header, raw: seq<nat>) {
    h.minimum < |raw| && h.maximum < |raw| && raw[h.minimum] > 0 && raw[h.maximum] > 0
  }

  /** A capture with this interval and range that gets as far as the percentile. */
  predicate Measured(h: Header, raw: seq<nat>, e: nat, minimum: nat, maximum: nat, duration: nat) {
    && Decodes(h, raw) && Inside(h, raw) && Attains(h, raw) && Reaches(h, e, duration)
    && h.minimum == minimum && h.maximum == maximum
  }

  /** Every percentile is found, whatever was measured with this interval and range. */
  ghost predicate AlwaysFound(e: nat, minimum: nat, maximum: nat)
    requires e > 0
  {
    forall h: Header, raw: seq<nat>, duration: nat, p: nat ::
      Measured(h, raw, e, minimum, maximum, duration) && p < 100 ==> Found(h, raw, e, p)
  }

  lemma {:induction false} SumGrows(a: seq<nat>, b: seq<nat>)
    requires |a| == |b| && forall i :: 0 <= i < |a| ==> a[i] <= b[i]
    ensures Sum(a) <= Sum(b)
  {
    if a != [] {
      SumGrows(a[..|a| - 1], b[..|b| - 1]);
    }
  }

  lemma CorrectedStaysInside(h: Header, raw: seq<nat>, e: nat)
    requires e > 0 && Decodes(h, raw) && Inside(h, raw)
    requires h.minimum <= e + 1 || h.maximum <= 2 * e
    ensures Decodes(CorrectedHeader(h, raw, e), Corrected(raw, e, h.maximum))
    ensures Inside(CorrectedHeader(h, raw, e), Corrected(raw, e, h.maximum))
    ensures CorrectedHeader(h, raw, e).count >= h.count
  {
    SumGrows(raw, Corrected(raw, e, h.maximum));
  }

  lemma InRangeIsFound(h: Header, raw: seq<nat>, e: nat, p: nat)
    requires e > 0 && Decodes(h, raw) && Inside(h, raw) && h.count > 0 && p < 100
    requires h.minimum <= e + 1 || h.maximum <= 2 * e
    ensures Found(h, raw, e, p)
  {
    CorrectedStaysInside(h, raw, e);
    InsideIsFound(CorrectedHeader(h, raw, e), Corrected(raw, e, h.maximum), p);
  }

  // ----- the failing side: most responses alike -----

  /** `c` responses at `n`, and one more at either end of the range. */
  function Pile(minimum: nat, maximum: nat, n: nat, c: nat): (s: seq<nat>)
    requires minimum <= maximum
    ensures |s| == maximum + 1
    ensures forall i :: 0 <= i <= maximum ==> s[i] == PileAt(minimum, maximum, n, c, i)
  {
    seq(maximum + 1, i => PileAt(minimum, maximum, n, c, i))
  }

  function PileAt(minimum: nat, maximum: nat, n: nat, c: nat, i: int): nat {
    (if i == n then c else 0) + (if i == minimum then 1 else 0) + (if i == maximum then 1 else 0)
  }

  lemma PileSum(minimum: nat, maximum: nat, n: nat, c: nat)
    requires minimum <= n <= maximum
    ensures Sum(Pile(minimum, maximum, n, c)) == c + 2
  {
    var none := seq(maximum + 1, _ => 0);
    SumZero(none);
    SumUpdate(none, n, c);
    var most := none[n := c];
    SumUpdate(most, minimum, most[minimum] + 1);
    var more := most[minimum := most[minimum] + 1];
    SumUpdate(more, maximum, more[maximum] + 1);
    assert more[maximum := more[maximum] + 1] == Pile(minimum, maximum, n, c);
  }

  /** Less than an interval below the pile only the response at the top adds anything, and at most one. */
  lemma {:induction false} LittleGain(raw: seq<nat>, e: nat, maximum: nat, n: nat, m: nat)
    requires e > 0 && maximum < |raw| && n < m + e
    requires forall i :: n < i <= maximum ==> raw[i] == if i == maximum then 1 else 0
    ensures Gain(raw, e, maximum, m) <= 1
    decreases maximum - m
  {
    if m + e <= maximum {
      LittleGain(raw, e, maximum, n, m + e);
    }
  }

  lemma {:induction false} SumAtMostOneMore(a: seq<nat>, b: seq<nat>)
    requires |a| == |b| && forall i :: 0 <= i < |a| ==> b[i] <= a[i] + 1
    ensures Sum(b) <= Sum(a) + |a|
  {
    if a != [] {
      SumAtMostOneMore(a[..|a| - 1], b[..|b| - 1]);
    }
  }

  /** Of a corrected pile little more than itself lies inside the recorded range. */
  lemma PileInside(e: nat, minimum: nat, maximum: nat, n: nat, c: nat)
    requires e > 0 && minimum <= n <= maximum && n < minimum + e
    ensures var corrected := Corrected(Pile(minimum, maximum, n, c), e, maximum);
            Sum(corrected[minimum..]) <= c + 2 + (maximum + 1 - minimum)
  {
    var raw := Pile(minimum, maximum, n, c);
    var corrected := Corrected(raw, e, maximum);
    forall m | minimum <= m <= maximum
      ensures corrected[m] <= raw[m] + 1
    {
      LittleGain(raw, e, maximum, n, m);
    }
    SumAtMostOneMore(raw[minimum..], corrected[minimum..]);
    SumSplit(raw, minimum);
    PileSum(minimum, maximum, n, c);
  }

  /** As much again lies below it. */
  lemma PileBelow(e: nat, minimum: nat, maximum: nat, n: nat, c: nat)
    requires e > 0 && minimum <= n <= maximum && e < n - e < minimum
    ensures var corrected := Corrected(Pile(minimum, maximum, n, c), e, maximum);
            Sum(corrected[..minimum]) >= c
  {
    var raw := Pile(minimum, maximum, n, c);
    assert Gain(raw, e, maximum, n - e) >= raw[n];
    SumAtLeast(Corrected(raw, e, maximum)[..minimum], n - e);
  }

  /** A measurement whose responses are nearly all equally slow can be corrected into buckets below its
      fastest response, and then the 99th percentile falls through. */
  lemma PileFallsThrough(e: nat, minimum: nat, maximum: nat, n: nat)
    requires e > 0 && minimum <= n <= maximum < MAX_BUCKETS && e < n - e < minimum
    ensures var c := CONNECTIONS + maximum;
            var h, raw := Header(c + 2, maximum + 1, minimum, maximum), Pile(minimum, maximum, n, c);
            && Decodes(h, raw) && Inside(h, raw) && Attains(h, raw)
            && Reaches(h, e, e * (h.count / CONNECTIONS)) && !Found(h, raw, e, 99)
  {
    hide Corrected;
    var c := CONNECTIONS + maximum;
    var h, raw := Header(c + 2, maximum + 1, minimum, maximum), Pile(minimum, maximum, n, c);
    PileSum(minimum, maximum, n, c);
    ExactQuotient(e, h.count / CONNECTIONS);
    PileInside(e, minimum, maximum, n, c);
    PileBelow(e, minimum, maximum, n, c);
    var corrected := Corrected(raw, e, maximum);
    assert |corrected| == maximum + 1 by { CorrectedLength(raw, e, maximum); }
    assert corrected[minimum..maximum + 1] == corrected[minimum..];
    SumSplit(corrected, minimum);
    BelowRank(Sum(corrected[..minimum]), Sum(corrected[minimum..]));
  }

  lemma CorrectedLength(raw: seq<nat>, e: nat, top: int)
    requires e > 0 && top < |raw|
    ensures |Corrected(raw, e, top)| == |raw|
  {
  }

  lemma ExactQuotient(e: nat, q: nat)
    requires q > 0
    ensures e * q / q == e
  {
    var a := e * q;
    QuotientBound(a, q);
    SmallerFactor(e, a / q + 1, q);
    assert (a / q) * q <= a by { assert a == q * (a / q) + a % q; }
    Distribute(q, e, 1);
    SmallerFactor(a / q, e + 1, q);
  }

  /** More than a hundredth below the range leaves the rank of the 99th percentile out of reach. */
  lemma BelowRank(below: nat, inside: nat)
    requires inside <= 99 * below
    ensures inside < Rank(below + inside, 99)
  {
  }

  /** For every interval and recorded range, the percentile of a corrected histogram can be relied on if and
      only if the minimum is at most one above the interval, or nothing is slow enough to be corrected. */
  lemma AlwaysFoundIff(e: nat, minimum: nat, maximum: nat)
    requires e > 0 && minimum <= maximum < MAX_BUCKETS
    ensures AlwaysFound(e, minimum, maximum) <==> minimum <= e + 1 || maximum <= 2 * e
  {
    hide Found;
    if minimum <= e + 1 || maximum <= 2 * e {
      forall h: Header, raw: seq<nat>, duration: nat, p: nat
        | Measured(h, raw, e, minimum, maximum, duration) && p < 100
        ensures Found(h, raw, e, p)
      {
        InRangeIsFound(h, raw, e, p);
      }
    } else {
      var n, c := if minimum > 2 * e then minimum else 2 * e + 1, CONNECTIONS + maximum;
      var h, raw := Header(c + 2, maximum + 1, minimum, maximum), Pile(minimum, maximum, n, c);
      PileFallsThrough(e, minimum, maximum, n);
      assert Measured(h, raw, e, minimum, maximum, e * (h.count / CONNECTIONS));
    }
  }

  // ----- closed-loop measurements -----

  /** The time all responses took together. */
  function Weight(s: seq<nat>): nat {
    if s == [] then 0 else Weight(s[..|s| - 1]) + (|s| - 1) * s[|s| - 1]
  }

  lemma {:induction false} WeightAtLeast(s: seq<nat>, minimum: nat)
    requires forall i :: 0 <= i < |s| && s[i] > 0 ==> minimum <= i
    ensures minimum * Sum(s) <= Weight(s)
  {
    if s != [] {
      var n := |s| - 1;
      WeightAtLeast(s[..n], minimum);
      Distribute(minimum, Sum(s[..n]), s[n]);
      if s[n] > 0 {
        FactorGrows(n, minimum, s[n]);
      }
    }
  }

  lemma Distribute(a: nat, b: nat, c: nat)
    ensures a * (b + c) == a * b + a * c
  {
  }

  lemma FactorGrows(a: nat, b: nat, c: nat)
    requires a >= b
    ensures a * c >= b * c
  {
  }

  /** The interval is above the mean: duration over rounded-down share, rounded down, falls short by less
      than one. */
  lemma MeanBelow(count: nat, duration: nat, e: nat)
    requires count >= CONNECTIONS && e == duration / (count / CONNECTIONS)
    ensures CONNECTIONS * duration < (e + 1) * count
  {
    var q := count / CONNECTIONS;
    assert duration < (e + 1) * q by { QuotientBound(duration, q); }
    assert CONNECTIONS * q <= count;
    assert (e + 1) * (CONNECTIONS * q) <= (e + 1) * count;
    assert CONNECTIONS * ((e + 1) * q) == (e + 1) * (CONNECTIONS * q);
  }

  lemma QuotientBound(a: nat, q: nat)
    requires q > 0
    ensures a < (a / q + 1) * q
  {
    assert a == q * (a / q) + a % q;
    assert (a / q + 1) * q == q * (a / q) + q;
  }

  lemma SmallerFactor(a: nat, b: nat, count: nat)
    requires a * count < b * count
    ensures a < b
  {
    assert a >= b ==> a * count >= b * count;
  }

  /** In a measurement over connections that each wait for a response before they ask again, the responses
      together took no longer than the connections were there.  Then the fastest is no slower than the
      interval, and every percentile of the corrected histogram is found, without any further condition. */
  lemma ClosedLoopIsFound(h: Header, raw: seq<nat>, e: nat, duration: nat, p: nat)
    requires e > 0 && Decodes(h, raw) && Inside(h, raw) && Reaches(h, e, duration) && p < 100
    requires Weight(raw) <= CONNECTIONS * duration
    ensures h.minimum <= e && Found(h, raw, e, p)
  {
    hide Found;
    WeightAtLeast(raw, h.minimum);
    MeanBelow(h.count, duration, e);
    SmallerFactor(h.minimum, e + 1, h.count);
    InRangeIsFound(h, raw, e, p);
  }
}
