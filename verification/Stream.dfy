/**
 The requests in a byte stream, read off one byte at a time with no reads, phases or
 responses in sight.  This is the reference against which the session's answers are ordered.
 */
module Stream {
  import opened Basics
  import opened RequestParsing

  datatype Scan = Scan(done: seq<Request>, parser: Parser)

  /** A finished parser stands for a fresh one, an announcing one for its continuation. */
  function Norm(p: Parser): (q: Parser)
    ensures q.status != HeadersComplete && q.place != Done
  {
    if p.place == Done then Fresh() else Resume(p)
  }

  function ScanByte(g: Grammar, sc: Scan, c: char): Scan {
    if sc.parser.place == Failed then sc
    else
      var p := Step(g, Norm(sc.parser), c);
      Scan(if p.place == Done then sc.done + [RequestOf(p)] else sc.done, p)
  }

  function ScanFrom(g: Grammar, sc: Scan, bytes: string): Scan
    decreases |bytes|
  {
    if bytes == "" then sc else ScanFrom(g, ScanByte(g, sc, bytes[0]), bytes[1..])
  }

  function ScanAll(g: Grammar, bytes: string): Scan {
    ScanFrom(g, Scan([], Fresh()), bytes)
  }

  lemma {:induction false} ScanSplit(g: Grammar, sc: Scan, a: string, b: string)
    ensures ScanFrom(g, sc, a + b) == ScanFrom(g, ScanFrom(g, sc, a), b)
    decreases |a|
  {
    if a == "" {
      assert a + b == b;
    } else {
      assert (a + b)[1..] == a[1..] + b;
      ScanSplit(g, ScanByte(g, sc, a[0]), a[1..], b);
    }
  }

  /** More bytes never change the requests already found. */
  lemma {:induction false} ScanGrows(g: Grammar, sc: Scan, bytes: string)
    ensures sc.done <= ScanFrom(g, sc, bytes).done
    decreases |bytes|
  {
    if bytes != "" {
      ScanGrows(g, ScanByte(g, sc, bytes[0]), bytes[1..]);
    }
  }

  lemma ScanPrefix(g: Grammar, a: string, b: string)
    requires a <= b
    ensures ScanAll(g, a).done <= ScanAll(g, b).done
  {
    assert b == a + b[|a|..];
    ScanSplit(g, Scan([], Fresh()), a, b[|a|..]);
    ScanGrows(g, ScanAll(g, a), b[|a|..]);
  }

  /** What a scan becomes when the parser it agrees with is fed. */
  ghost predicate Follows(sc: Scan, fed: Fed, sc': Scan) {
    && Norm(sc'.parser) == Norm(fed.parser)
    && sc'.done == (if fed.parser.status == Complete then sc.done + [RequestOf(fed.parser)] else sc.done)
  }

  lemma {:induction false} ScanConsume(g: Grammar, sc: Scan, p: Parser, bytes: string)
    requires Norm(sc.parser) == p && !Ended(p)
    ensures var fed := Consume(g, p, bytes);
            Follows(sc, fed, ScanFrom(g, sc, bytes[..fed.accepted]))
    decreases |bytes|
  {
    if bytes != "" {
      var fed := Consume(g, p, bytes);
      var q := Step(g, p, bytes[0]);
      assert bytes[..fed.accepted][0] == bytes[0];
      assert bytes[..fed.accepted][1..] == bytes[1..][..fed.accepted - 1];
      if q.status != HeadersComplete && !Ended(q) {
        ScanConsume(g, ScanByte(g, sc, bytes[0]), q, bytes[1..]);
      }
    }
  }

  /** Feeding a session's parser advances the scan of the consumed stream in step. */
  lemma ScanFeed(g: Grammar, consumed: string, p: Parser, bytes: string)
    requires Norm(ScanAll(g, consumed).parser) == Norm(p) && Unfinished(p)
    ensures var fed := Feed(g, p, bytes);
            Follows(ScanAll(g, consumed), fed, ScanAll(g, consumed + bytes[..fed.accepted]))
  {
    var sc := ScanAll(g, consumed);
    ScanConsume(g, sc, Resume(p), bytes);
    ScanSplit(g, Scan([], Fresh()), consumed, bytes[..Feed(g, p, bytes).accepted]);
  }
}
