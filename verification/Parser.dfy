/**
 Incremental framing of one HTTP/1.1 request, after `src/http/HttpRequest.cpp`.

 The framing automaton is modelled byte by byte: CR LF line framing, the header,
 request-line, chunk and trailer limits, Content-Length and chunked bodies and the
 latched status.  What a single line means (`validateRequestLine`, `validateHeader`,
 `validateChunkSize`) is a parameter, `Grammar`, so every theorem holds for every line
 grammar.  `FeedRequestBytes` is the source's loop, which copies bodies in blocks; it is
 proved equal to the byte automaton, and the automaton does not depend on how the byte
 stream is cut into reads.
 */
module RequestParsing {
  import opened Basics

  const MAX_HEADER_BYTES := 16384
  const MAX_BODY_BYTES := 1048576
  const MAX_REQUEST_LINE_BYTES := 4096
  const MAX_CHUNK_LINE_BYTES := 1024
  const MAX_CHUNK_METADATA_BYTES := 65536
  const MAX_TRAILER_BYTES := 8192

  datatype Place =
    | RequestLine | Headers | Body | ChunkSize | ChunkData | ChunkDataCrlf | Trailers
    | Done | Failed

  datatype Status =
    | NeedMore | Complete | BadRequest | PayloadTooLarge | HeadersComplete
    | ExpectationFailed | NotImplemented

  datatype StartLine = StartLine(verb: string, target: string)

  /** What the header lines have established; `extra` stands for the fields that do not
      influence framing (content type, conditional and range fields). */
  datatype Fields = Fields(
    hostSeen: bool, contentLengthSeen: bool, contentLength: nat,
    transferEncodingSeen: bool, unsupportedCoding: bool,
    expectSeen: bool, expectContinue: bool, trailerDeclared: bool,
    close: bool, extra: string)

  /** The meaning of single lines.  `None` is a line the source refuses. */
  datatype Grammar = Grammar(
    requestLine: string -> Option<StartLine>,
    header: (Fields, string) -> Option<Fields>,
    trailer: string -> bool,
    chunkSize: string -> Option<nat>)

  datatype Request = Request(start: StartLine, fields: Fields, body: string)
  datatype Head = Head(start: StartLine, close: bool)

  datatype RawParser = RawParser(
    place: Place, status: Status, pendingCr: bool,
    start: StartLine, lineStart: nat, line: string,
    requestBytes: nat, headerBytes: nat, fields: Fields, body: string,
    chunkRemaining: nat, metadataBytes: nat, trailerBytes: nat, chunkLineBytes: nat,
    dataCrlf: nat)

  const NO_FIELDS := Fields(false, false, 0, false, false, false, false, false, false, "")

  const FRESH :=
    RawParser(RequestLine, NeedMore, false, StartLine("", ""), 0, "", 0, 0, NO_FIELDS, "", 0, 0, 0, 0, 0)

  predicate Ended(p: RawParser) {
    p.place == Done || p.place == Failed
  }

  predicate Unfinished(p: RawParser) {
    p.status == NeedMore || p.status == HeadersComplete
  }

  predicate InHeader(p: RawParser) {
    p.place == RequestLine || p.place == Headers
  }

  /** What every reachable parser satisfies.  The first clause is memory safety of the
      fixed 16 KiB line store. */
  predicate WellFormed(p: RawParser) {
    && p.lineStart + |p.line| <= MAX_HEADER_BYTES
    && (InHeader(p) ==>
          && p.lineStart + |p.line| <= p.headerBytes < MAX_HEADER_BYTES
          && p.headerBytes == p.requestBytes
          && p.body == "")
    && (p.place == Body ==> |p.body| < p.fields.contentLength <= MAX_BODY_BYTES)
    && (p.place == ChunkData ==> 0 < p.chunkRemaining && |p.body| + p.chunkRemaining <= MAX_BODY_BYTES)
    && |p.body| <= MAX_BODY_BYTES
    && (p.place == Done <==> p.status == Complete)
    && (p.place == Failed <==> p.status in {BadRequest, PayloadTooLarge, ExpectationFailed, NotImplemented})
    && (p.status == HeadersComplete ==> p.place == Body || p.place == ChunkSize)
    && p.dataCrlf < 2
    && (p.requestBytes == 0 ==> p == FRESH)
  }

  type Parser = p: RawParser | WellFormed(p) witness FRESH

  function Fresh(): Parser {
    FRESH
  }

  function RequestOf(p: Parser): Request {
    Request(p.start, p.fields, p.body)
  }

  function HeadOf(p: Parser): Head {
    Head(p.start, p.fields.close)
  }

  predicate IsHead(p: RawParser) {
    p.start.verb == "HEAD"
  }

  // ----- the byte automaton -----

  function FinishRequest(p: RawParser): RawParser {
    p.(place := Done, status := Complete)
  }

  function FinishHeaders(p: RawParser): RawParser {
    var f := p.fields;
    if !f.hostSeen || (f.transferEncodingSeen && f.contentLengthSeen) ||
       (f.trailerDeclared && !f.transferEncodingSeen) then
      p.(place := Failed)
    else if f.contentLength > MAX_BODY_BYTES then p.(place := Failed, status := PayloadTooLarge)
    else if f.unsupportedCoding then p.(place := Failed, status := NotImplemented)
    else if f.expectSeen && !f.expectContinue then p.(place := Failed, status := ExpectationFailed)
    else
      var q := if f.transferEncodingSeen then p.(place := ChunkSize)
               else if f.contentLength != 0 then p.(place := Body)
               else FinishRequest(p);
      if f.expectContinue && q.place != Done then q.(status := HeadersComplete) else q
  }

  function FinishLine(g: Grammar, p: RawParser): RawParser {
    var q :=
      if p.place == RequestLine then
        match g.requestLine(p.line)
        case None => p.(place := Failed)
        case Some(start) => p.(start := start, lineStart := |p.line|, place := Headers)
      else if p.line == "" then FinishHeaders(p)
      else
        match g.header(p.fields, p.line)
        case None => p.(place := Failed)
        case Some(fields) => p.(fields := fields);
    q.(line := "")
  }

  function Refuse(p: RawParser): RawParser {
    if p.place == Failed && p.status in {NeedMore, HeadersComplete} then p.(status := BadRequest) else p
  }

  /** A header byte before limits are applied. */
  function HeaderChar(g: Grammar, s: RawParser, c: char): RawParser {
    if s.pendingCr then
      if c != '\n' then s.(pendingCr := false, place := Failed)
      else FinishLine(g, s.(pendingCr := false))
    else if c == '\r' then s.(pendingCr := true)
    else if c == '\n' || c == '\0' then s.(place := Failed)
    else if s.place == RequestLine && |s.line| == MAX_REQUEST_LINE_BYTES then s.(place := Failed)
    else s.(line := s.line + [c])
  }

  function Limited(r: RawParser): RawParser {
    Refuse(if r.headerBytes == MAX_HEADER_BYTES && InHeader(r) then r.(place := Failed) else r)
  }

  lemma FinishHeadersOk(p: RawParser)
    requires p.place == Headers && p.status == NeedMore && p.line == "" && p.lineStart <= MAX_HEADER_BYTES
    requires p.body == "" && p.dataCrlf < 2 && p.requestBytes > 0 && p.headerBytes <= MAX_HEADER_BYTES
    ensures WellFormed(Limited(FinishHeaders(p).(line := ""))) && FinishHeaders(p).requestBytes == p.requestBytes
  {
  }

  lemma FinishLineOk(g: Grammar, p: RawParser)
    requires InHeader(p) && p.status == NeedMore && p.lineStart + |p.line| < p.headerBytes <= MAX_HEADER_BYTES
    requires p.headerBytes == p.requestBytes && p.body == "" && p.dataCrlf < 2
    ensures WellFormed(Limited(FinishLine(g, p))) && FinishLine(g, p).requestBytes == p.requestBytes
  {
    if p.place == Headers && p.line == "" {
      FinishHeadersOk(p);
    }
    hide FinishHeaders;
  }

  lemma HeaderCharOk(g: Grammar, s: RawParser, c: char)
    requires InHeader(s) && s.status == NeedMore && s.lineStart + |s.line| < s.headerBytes <= MAX_HEADER_BYTES
    requires s.headerBytes == s.requestBytes && s.body == "" && s.dataCrlf < 2
    ensures WellFormed(Limited(HeaderChar(g, s, c))) && HeaderChar(g, s, c).requestBytes == s.requestBytes
  {
    hide FinishLine;
    if s.pendingCr && c == '\n' {
      FinishLineOk(g, s.(pendingCr := false));
    }
  }

  function HeaderByte(g: Grammar, p: Parser, c: char): (q: Parser)
    requires InHeader(p) && p.status == NeedMore
    ensures q.requestBytes == p.requestBytes + 1
  {
    var s := p.(headerBytes := p.headerBytes + 1, requestBytes := p.requestBytes + 1);
    HeaderCharOk(g, s, c);
    Limited(HeaderChar(g, s, c))
  }

  function BodyByte(p: Parser, c: char): (q: Parser)
    requires p.place == Body && p.status == NeedMore
    ensures q.requestBytes == p.requestBytes + 1 && !InHeader(q) && q.status != HeadersComplete
  {
    var s := p.(body := p.body + [c], requestBytes := p.requestBytes + 1);
    if |s.body| == s.fields.contentLength then FinishRequest(s) else s
  }

  function ChunkDataByte(p: Parser, c: char): (q: Parser)
    requires p.place == ChunkData
    ensures q.requestBytes == p.requestBytes + 1 && !InHeader(q) && q.status != HeadersComplete
  {
    var s := p.(body := p.body + [c], requestBytes := p.requestBytes + 1, chunkRemaining := p.chunkRemaining - 1);
    if s.chunkRemaining == 0 then s.(place := ChunkDataCrlf) else s
  }

  function ChunkSizeLine(g: Grammar, p: RawParser): RawParser
    requires |p.body| <= MAX_BODY_BYTES
  {
    match g.chunkSize(p.line)
    case None => p.(place := Failed)
    case Some(size) =>
      if size > MAX_BODY_BYTES - |p.body| then p.(place := Failed, status := PayloadTooLarge)
      else p.(chunkRemaining := size, place := if size == 0 then Trailers else ChunkData)
  }

  function MetadataLine(g: Grammar, p: RawParser): RawParser
    requires |p.body| <= MAX_BODY_BYTES
  {
    var q :=
      if p.place == ChunkSize then ChunkSizeLine(g, p).(chunkLineBytes := 0)
      else if p.line == "" then FinishRequest(p)
      else if !g.trailer(p.line) then p.(place := Failed)
      else p;
    q.(line := "")
  }

  function MetadataByte(g: Grammar, p: Parser, c: char): (r: Parser)
    requires p.place in {ChunkSize, ChunkDataCrlf, Trailers} && p.status == NeedMore
    ensures r.requestBytes == p.requestBytes + 1 && !InHeader(r) && r.status != HeadersComplete
  {
    var q := p.(
      requestBytes := p.requestBytes + 1,
      metadataBytes := p.metadataBytes + 1,
      trailerBytes := p.trailerBytes + (if p.place == Trailers then 1 else 0),
      chunkLineBytes := p.chunkLineBytes + (if p.place == ChunkSize then 1 else 0));
    Refuse(
      if q.metadataBytes > MAX_CHUNK_METADATA_BYTES || q.trailerBytes > MAX_TRAILER_BYTES ||
         q.chunkLineBytes > MAX_CHUNK_LINE_BYTES then
        q.(place := Failed)
      else if q.place == ChunkDataCrlf then
        if c != (if q.dataCrlf == 0 then '\r' else '\n') then q.(place := Failed)
        else if q.dataCrlf == 1 then q.(dataCrlf := 0, chunkLineBytes := 0, place := ChunkSize)
        else q.(dataCrlf := 1)
      else if q.pendingCr then
        if c != '\n' then q.(pendingCr := false, place := Failed) else MetadataLine(g, q.(pendingCr := false))
      else if c == '\r' then q.(pendingCr := true)
      else if c == '\n' || c == '\0' || q.lineStart + |q.line| == MAX_HEADER_BYTES then q.(place := Failed)
      else q.(line := q.line + [c]))
  }

  /** One byte.  The result type carries `WellFormed`, so this also proves that no byte
      sequence leaves the bounds of the line store or of the body. */
  function Step(g: Grammar, p: Parser, c: char): (q: Parser)
    requires !Ended(p) && p.status == NeedMore
    ensures q.requestBytes == p.requestBytes + 1
    ensures q.status == HeadersComplete ==> InHeader(p)
    ensures !InHeader(p) ==> !InHeader(q)
  {
    if p.place == Body then BodyByte(p, c)
    else if p.place == ChunkData then ChunkDataByte(p, c)
    else if InHeader(p) then HeaderByte(g, p, c)
    else MetadataByte(g, p, c)
  }

  // ----- feeding -----

  datatype Fed = Fed(parser: Parser, accepted: nat)

  /** A parser that announced its headers continues with the body on the next feed. */
  function Resume(p: Parser): (q: Parser)
    ensures q.status != HeadersComplete
  {
    if p.status == HeadersComplete then p.(status := NeedMore) else p
  }

  function Consume(g: Grammar, p: Parser, bytes: string): (r: Fed)
    requires p.status != HeadersComplete
    ensures r.accepted <= |bytes|
    ensures r.parser.status == NeedMore ==> r.accepted == |bytes|
    ensures !Ended(p) && bytes != "" ==> 0 < r.accepted
    ensures r.parser.requestBytes == p.requestBytes + r.accepted
    ensures r.parser.status == HeadersComplete ==> InHeader(p) && 0 < r.accepted
    ensures !InHeader(p) ==> !InHeader(r.parser)
    decreases |bytes|
  {
    if bytes == "" || Ended(p) then Fed(p, 0)
    else
      var q := Step(g, p, bytes[0]);
      if q.status == HeadersComplete then Fed(q, 1)
      else
        var rest := Consume(g, q, bytes[1..]);
        Fed(rest.parser, rest.accepted + 1)
  }

  function Feed(g: Grammar, p: Parser, bytes: string): (r: Fed)
    ensures r.accepted <= |bytes|
    ensures r.parser.status == NeedMore ==> r.accepted == |bytes|
    ensures Unfinished(p) && bytes != "" ==> 0 < r.accepted
    ensures Unfinished(p) && bytes == "" ==> r.parser.status == NeedMore
    ensures r.parser.requestBytes == p.requestBytes + r.accepted
    ensures r.parser.status == HeadersComplete ==> InHeader(p) && !InHeader(r.parser) && 0 < r.accepted
    ensures !InHeader(p) ==> !InHeader(r.parser)
  {
    Consume(g, Resume(p), bytes)
  }

  /** Feeding a first read and then a second one is feeding both at once: a first read that
      leaves the request unfinished is fully absorbed, and a read that ends the request (or
      announces its headers) is unaffected by what follows it. */
  lemma {:induction false} ConsumeSplit(g: Grammar, p: Parser, a: string, b: string)
    requires p.status != HeadersComplete
    ensures var first := Consume(g, p, a);
            Consume(g, p, a + b) ==
            if first.parser.status == NeedMore then
              var second := Consume(g, first.parser, b);
              Fed(second.parser, |a| + second.accepted)
            else first
    decreases |a|
  {
    if a == "" {
      assert a + b == b;
    } else if !Ended(p) {
      assert (a + b)[1..] == a[1..] + b;
      var q := Step(g, p, a[0]);
      if q.status != HeadersComplete {
        ConsumeSplit(g, q, a[1..], b);
      }
    }
  }

  /** The same for `Feed`, for any number of reads: the result of a request does not depend
      on how its bytes were cut up. */
  function FeedAll(g: Grammar, p: Parser, pieces: seq<string>): Fed
    decreases |pieces|
  {
    if pieces == [] then Fed(Resume(p), 0)
    else
      var first := Feed(g, p, pieces[0]);
      if first.parser.status == NeedMore then
        var rest := FeedAll(g, first.parser, pieces[1..]);
        Fed(rest.parser, first.accepted + rest.accepted)
      else first
  }

  function Join(pieces: seq<string>): string {
    if pieces == [] then "" else pieces[0] + Join(pieces[1..])
  }

  lemma {:induction false} SplitInvariance(g: Grammar, p: Parser, pieces: seq<string>)
    ensures FeedAll(g, p, pieces) == Feed(g, p, Join(pieces))
    decreases |pieces|
  {
    if pieces != [] {
      ConsumeSplit(g, Resume(p), pieces[0], Join(pieces[1..]));
      var first := Feed(g, p, pieces[0]);
      if first.parser.status == NeedMore {
        SplitInvariance(g, first.parser, pieces[1..]);
        assert Resume(first.parser) == first.parser;
      }
    }
  }

  // ----- the block-copying loop -----

  /** A block of Content-Length body taken at once. */
  function AppendBody(p: Parser, block: string): (q: Parser)
    requires p.place == Body && p.status == NeedMore
    requires |block| <= p.fields.contentLength - |p.body|
  {
    var s := p.(body := p.body + block, requestBytes := p.requestBytes + |block|);
    if |s.body| == s.fields.contentLength then FinishRequest(s) else s
  }

  /** A block of chunk data taken at once. */
  function AppendChunk(p: Parser, block: string): (q: Parser)
    requires p.place == ChunkData && |block| <= p.chunkRemaining
  {
    var s := p.(body := p.body + block, requestBytes := p.requestBytes + |block|,
      chunkRemaining := p.chunkRemaining - |block|);
    if s.chunkRemaining == 0 then s.(place := ChunkDataCrlf) else s
  }

  lemma {:induction false} BodyBlock(g: Grammar, p: Parser, block: string)
    requires p.place == Body && p.status == NeedMore
    requires |block| <= p.fields.contentLength - |p.body|
    ensures Consume(g, p, block) == Fed(AppendBody(p, block), |block|)
    decreases |block|
  {
    if block == "" {
      assert p.body + block == p.body;
    } else {
      var q := Step(g, p, block[0]);
      assert p.body + [block[0]] + block[1..] == p.body + block;
      if q.place == Body {
        BodyBlock(g, q, block[1..]);
      } else {
        assert block[1..] == "";
      }
    }
  }

  lemma {:induction false} ChunkBlock(g: Grammar, p: Parser, block: string)
    requires p.place == ChunkData && |block| <= p.chunkRemaining
    ensures Consume(g, p, block) == Fed(AppendChunk(p, block), |block|)
    decreases |block|
  {
    if block == "" {
      assert p.body + block == p.body;
    } else {
      var q := Step(g, p, block[0]);
      assert p.body + [block[0]] + block[1..] == p.body + block;
      if q.place == ChunkData {
        ChunkBlock(g, q, block[1..]);
      } else {
        assert block[1..] == "";
      }
    }
  }

  /** A request with Content-Length n takes exactly the next n bytes as its body, however
      many follow. */
  lemma ContentLengthBody(g: Grammar, p: Parser, bytes: string)
    requires p.place == Body
    requires |bytes| >= p.fields.contentLength - |p.body|
    ensures var r := Feed(g, p, bytes);
            var n := p.fields.contentLength - |p.body|;
            && r.accepted == n && r.parser.status == Complete
            && RequestOf(r.parser) == RequestOf(p).(body := p.body + bytes[..n])
  {
    var n := p.fields.contentLength - |p.body|;
    BodyBlock(g, Resume(p), bytes[..n]);
    ConsumeSplit(g, Resume(p), bytes[..n], bytes[n..]);
    assert bytes[..n] + bytes[n..] == bytes;
  }

  class RequestParser {
    const grammar: Grammar
    var core: Parser

    constructor (grammar: Grammar)
      ensures core == Fresh() && this.grammar == grammar
    {
      this.grammar := grammar;
      core := Fresh();
    }

    method ResetRequestParser()
      modifies this
      ensures core == Fresh()
    {
      core := Fresh();
    }

    /** The source's loop: bodies are copied in blocks, everything else byte by byte. */
    method FeedRequestBytes(bytes: string) returns (accepted: nat)
      modifies this
      ensures Fed(core, accepted) == Feed(grammar, old(core), bytes)
    {
      hide Consume;
      hide Continues;
      hide Step;
      accepted := 0;
      core := Resume(core);
      ghost var first := core;
      ContinuesAtStart(grammar, first, bytes);
      while accepted < |bytes| && !Ended(core)
        invariant accepted <= |bytes|
        invariant core.status != HeadersComplete
        invariant Continues(grammar, first, bytes, core, accepted)
      {
        if core.place == Body {
          var count := Min(|bytes| - accepted, core.fields.contentLength - |core.body|);
          BodyContinues(grammar, first, bytes, core, accepted, count);
          core := AppendBody(core, bytes[accepted..accepted + count]);
          accepted := accepted + count;
        } else if core.place == ChunkData {
          var count := Min(|bytes| - accepted, core.chunkRemaining);
          ChunkContinues(grammar, first, bytes, core, accepted, count);
          core := AppendChunk(core, bytes[accepted..accepted + count]);
          accepted := accepted + count;
        } else {
          StepContinues(grammar, first, bytes, core, accepted);
          core := Step(grammar, core, bytes[accepted]);
          accepted := accepted + 1;
          if core.status == HeadersComplete {
            return;
          }
        }
      }
      ContinuesAtEnd(grammar, first, bytes, core, accepted);
    }
  }

  /** After `accepted` bytes the remaining work is that of `core` on the rest. */
  ghost predicate Continues(g: Grammar, first: Parser, bytes: string, core: Parser, accepted: nat)
    requires accepted <= |bytes| && first.status != HeadersComplete && core.status != HeadersComplete
  {
    var rest := Consume(g, core, bytes[accepted..]);
    Consume(g, first, bytes) == Fed(rest.parser, accepted + rest.accepted)
  }

  lemma ContinuesAtStart(g: Grammar, first: Parser, bytes: string)
    requires first.status != HeadersComplete
    ensures Continues(g, first, bytes, first, 0)
  {
    assert bytes[0..] == bytes;
  }

  lemma ContinuesAtEnd(g: Grammar, first: Parser, bytes: string, core: Parser, accepted: nat)
    requires accepted <= |bytes| && first.status != HeadersComplete && core.status != HeadersComplete
    requires accepted == |bytes| || Ended(core)
    requires Continues(g, first, bytes, core, accepted)
    ensures Consume(g, first, bytes) == Fed(core, accepted)
  {
  }

  lemma StepContinues(g: Grammar, first: Parser, bytes: string, core: Parser, accepted: nat)
    requires accepted < |bytes| && first.status != HeadersComplete && core.status == NeedMore && !Ended(core)
    requires Continues(g, first, bytes, core, accepted)
    ensures var q := Step(g, core, bytes[accepted]);
            if q.status == HeadersComplete then Consume(g, first, bytes) == Fed(q, accepted + 1)
            else Continues(g, first, bytes, q, accepted + 1)
  {
    assert bytes[accepted..][1..] == bytes[accepted + 1..];
  }

  lemma BodyContinues(g: Grammar, first: Parser, bytes: string, core: Parser, accepted: nat, count: nat)
    requires accepted + count <= |bytes| && first.status != HeadersComplete
    requires core.place == Body && core.status == NeedMore && count <= core.fields.contentLength - |core.body|
    requires Continues(g, first, bytes, core, accepted)
    ensures Continues(g, first, bytes, AppendBody(core, bytes[accepted..accepted + count]), accepted + count)
  {
    var block, rest := bytes[accepted..accepted + count], bytes[accepted + count..];
    var q := AppendBody(core, block);
    hide WellFormed, Consume, AppendBody;
    hide Ended;
    BodyEnds(core, block);
    BodyBlock(g, core, block);
    ConsumeSplit(g, core, block, rest);
    EndedTakesNothing(g, q, rest);
    BlockAndRest(bytes, accepted, count);
  }

  lemma BodyEnds(p: Parser, block: string)
    requires p.place == Body && p.status == NeedMore && |block| <= p.fields.contentLength - |p.body|
    ensures AppendBody(p, block).status == NeedMore ||
            (Ended(AppendBody(p, block)) && AppendBody(p, block).status == Complete)
  {
    hide WellFormed;
  }

  lemma ChunkGoesOn(p: Parser, block: string)
    requires p.place == ChunkData && p.status == NeedMore && |block| <= p.chunkRemaining
    ensures AppendChunk(p, block).status == NeedMore
  {
    hide WellFormed;
  }

  lemma EndedTakesNothing(g: Grammar, p: Parser, bytes: string)
    requires p.status != HeadersComplete
    ensures Ended(p) ==> Consume(g, p, bytes) == Fed(p, 0)
  {
    hide WellFormed;
  }

  lemma ChunkContinues(g: Grammar, first: Parser, bytes: string, core: Parser, accepted: nat, count: nat)
    requires accepted + count <= |bytes| && first.status != HeadersComplete
    requires core.place == ChunkData && core.status == NeedMore && count <= core.chunkRemaining
    requires Continues(g, first, bytes, core, accepted)
    ensures Continues(g, first, bytes, AppendChunk(core, bytes[accepted..accepted + count]), accepted + count)
  {
    var block, rest := bytes[accepted..accepted + count], bytes[accepted + count..];
    hide WellFormed, Consume, AppendChunk, Ended;
    ChunkGoesOn(core, block);
    ChunkBlock(g, core, block);
    ConsumeSplit(g, core, block, rest);
    BlockAndRest(bytes, accepted, count);
  }

  lemma BlockAndRest(bytes: string, from: nat, count: nat)
    requires from + count <= |bytes|
    ensures bytes[from..] == bytes[from..from + count] + bytes[from + count..]
  {
  }
}
