/**
 What a session answers is a function of the byte stream alone.  `Serve` is a reference
 semantics with no reads, phases, ticks or completions; every run in which nothing expired, was
 refused, failed or was drained produces exactly the responses of `Serve`, whether sends complete
 at once and recurse or complete later.
 */
module SessionConfluence {
  import opened Basics
  import opened RequestParsing
  import opened Stream
  import opened Session
  import opened SessionProtocol
  import opened SessionInvariant
  import opened SessionRuns

  /** The application: what it decides depends on the request and nothing else. */
  datatype Site = Site(
    grammar: Grammar, errorContent: nat -> nat,
    head: Head -> Verdict, submit: Request -> Submission, provide: Request -> Provided, task: Request -> Reply)

  datatype Out = Out(answered: Answered, reply: Reply)

  function SiteError(site: Site, p: Parser, status: nat): Reply {
    Reply(true, status, if IsHead(p) then 0 else site.errorContent(status))
  }

  function SiteHead(site: Site, p: Parser): Option<Reply> {
    match site.head(HeadOf(p))
    case Admit => None
    case Deny(reply) => Some(if reply.close then reply else SiteError(site, p, 500))
    case HeadThrows => Some(SiteError(site, p, 500))
  }

  function SiteReply(site: Site, p: Parser): Reply {
    match site.submit(RequestOf(p))
    case Immediate(reply) => reply
    case Accepted(_) => site.task(RequestOf(p))
    case SubmitThrows => SiteError(site, p, 500)
    case Synchronous =>
      match site.provide(RequestOf(p))
      case ProviderThrows => SiteError(site, p, 500)
      case Provided(reply) => if p.fields.close && !reply.close then SiteError(site, p, 500) else reply
  }

  /** The responses to a stream, request by request. */
  function Serve(site: Site, p: Parser, bytes: string, eof: bool, completed: bool): seq<Out>
    requires Unfinished(p)
    decreases |bytes|, 0
  {
    var fed := Feed(site.grammar, p, bytes);
    var q, rest := fed.parser, bytes[fed.accepted..];
    if q.status == NeedMore then
      if !eof || (completed && q.requestBytes == 0) then [] else [Out(Truncated, SiteError(site, q, 400))]
    else if q.status == HeadersComplete then
      match SiteHead(site, q)
      case Some(reply) => [Out(HeadOnly(HeadOf(q)), reply)]
      case None => Serve(site, q, rest, eof, completed)
    else if q.status == Complete then Follow(site, q, rest, eof)
    else [Out(Malformed(q.status), SiteError(site, q, StatusCode(q.status)))]
  }

  /** The answer to a whole request and what follows it. */
  function Follow(site: Site, p: Parser, rest: string, eof: bool): seq<Out>
    decreases |rest|, 1
  {
    var reply := SiteReply(site, p);
    [Out(Whole(RequestOf(p)), reply)] + (if reply.close then [] else Serve(site, Fresh(), rest, eof, true))
  }

  /** A read that leaves its request unfinished does not influence the responses. */
  lemma ServeSplit(site: Site, p: Parser, a: string, b: string, eof: bool, completed: bool)
    requires Unfinished(p)
    ensures var fed := Feed(site.grammar, p, a);
            if fed.parser.status == NeedMore then
              Serve(site, p, a + b, eof, completed) == Serve(site, fed.parser, b, eof, completed)
            else Feed(site.grammar, p, a + b) == fed && (a + b)[fed.accepted..] == a[fed.accepted..] + b
  {
    hide WellFormed, Feed, SiteHead, Follow, SiteError;
    FeedSplit(site.grammar, p, a, b);
    var fed := Feed(site.grammar, p, a);
    if fed.parser.status == NeedMore {
      var n := Feed(site.grammar, fed.parser, b).accepted;
      assert (a + b)[|a| + n..] == b[n..];
    }
  }

  lemma FeedSplit(g: Grammar, p: Parser, a: string, b: string)
    requires Unfinished(p)
    ensures var fed := Feed(g, p, a);
            Feed(g, p, a + b) ==
            if fed.parser.status == NeedMore then
              var second := Feed(g, fed.parser, b);
              Fed(second.parser, |a| + second.accepted)
            else fed
    ensures Feed(g, p, a).parser.status == NeedMore ==> Unfinished(Feed(g, p, a).parser)
  {
    hide WellFormed, Consume;
    ConsumeSplit(g, Resume(p), a, b);
    assert Feed(g, p, a).parser.status == NeedMore ==> Resume(Feed(g, p, a).parser) == Feed(g, p, a).parser;
  }

  // ----- undisturbed runs -----

  /** The application of the world is the site: it decides by the request, at whatever moment it is
      asked.  Nothing is said of the clock, the budget, the transport or the timers. */
  ghost predicate Plays(w: World, site: Site) {
    && w.grammar == site.grammar && w.errorContent == site.errorContent
    && (forall t: nat, h: Head :: w.head(t, h) == site.head(h))
    && (forall t: nat, r: Request :: w.provide(t, r) == site.provide(r))
    && (forall t: nat, r: Request :: SameSubmission(w.submit(t, r), site.submit(r)))
    && (forall t: nat, j: Job :: w.collect(t, j).Ready? ==> w.collect(t, j).reply == site.task(j.request))
  }

  /** Nothing has expired, been refused, failed or been drained so far. */
  predicate Clean(s: State) {
    s.hist.mishaps == []
  }

  predicate SameSubmission(a: Submission, b: Submission) {
    a == b || (a.Accepted? && b.Accepted?)
  }

  predicate JobFits(s: State) {
    s.ses.job.Some? ==> s.ses.job.value.request == RequestOf(s.ses.parser)
  }

  function Outs(log: seq<Event>): seq<Out> {
    if log == [] then []
    else
      var before, e := Outs(log[..|log| - 1]), log[|log| - 1];
      if e.Final? then before + [Out(e.answered, e.reply)] else before
  }

  lemma OutsNote(log: seq<Event>, e: Event)
    ensures Outs(log + [e]) == if e.Final? then Outs(log) + [Out(e.answered, e.reply)] else Outs(log)
  {
    assert (log + [e])[..|log|] == log;
  }

  /** The responses still to come, given the bytes still to come. */
  function Remaining(site: Site, s: State, future: string, eof: bool): seq<Out>
    requires CanRead(s)
  {
    match s.ses.phase
    case Closing => []
    case Writing => if s.ses.close then [] else Serve(site, Fresh(), s.conn.input + future, eof, true)
    case AwaitingTask =>
      var reply := site.task(RequestOf(s.ses.parser));
      [Out(Whole(RequestOf(s.ses.parser)), reply)] +
      (if reply.close then [] else Serve(site, Fresh(), s.conn.input + future, eof, true))
    case _ => Serve(site, s.ses.parser, s.conn.input + future, eof, s.ses.completed)
  }

  function Total(site: Site, s: State, future: string, eof: bool): seq<Out>
    requires CanRead(s)
  {
    Outs(s.hist.log) + Remaining(site, s, future, eof)
  }

  /** What is known of the future: it brings no bytes after an end of input. */
  predicate Future(s: State, future: string, eof: bool) {
    s.conn.eof ==> eof && future == ""
  }

  lemma FinishCalm(w: World, s: State, aborted: bool)
    ensures Outs(FinishPending(w, s, aborted).hist.log) == Outs(s.hist.log)
  {
    hide WellFormed;
    OutsNote(s.hist.log, Released);
    var h := if s.ses.lease then Note(s.hist, Released) else s.hist;
    OutsNote(h.log, Finished(aborted, s.ses.status, s.ses.content, Max(0, w.now(h.tick) - s.ses.started)));
  }

  lemma AdmissionCalm(w: World, s: State)
    ensures Outs(Admission(w, s).hist.log) == Outs(s.hist.log)
    ensures var t := Admission(w, s);
            && t.conn.input == s.conn.input && t.conn.eof == s.conn.eof && t.ses.parser == s.ses.parser
            && t.ses.completed == s.ses.completed && t.ses.phase == s.ses.phase && t.ses.job == s.ses.job
  {
    hide WellFormed, Outs;
    var e := Began(w.now(s.hist.tick));
    OutsNote(s.hist.log, e);
    OutsNote(s.hist.log + [e], Acquired);
  }

  /** An action taken by `Receive` accounts for all remaining responses. */
  ghost predicate ActionServes(w: World, site: Site, a: Action, total: seq<Out>, future: string, eof: bool) {
    match a
    case Stop(t) =>
      && CanRead(t) && JobFits(t) && Total(site, t, future, eof) == total
      && (t.conn.open || t.ses.phase == Closing)
    case Answer(t, answered, _, reply) =>
      && JobFits(t) && t.ses.job.None?
      && total == Outs(t.hist.log) + ([Out(answered, reply)] +
           (if reply.close then [] else Serve(site, Fresh(), t.conn.input + future, eof, true)))
    case Announce(t) =>
      && JobFits(t) && t.ses.job.None? && Unfinished(t.ses.parser)
      && total == Outs(t.hist.log) + Serve(site, t.ses.parser, t.conn.input + future, eof, t.ses.completed)
  }

  lemma TaskServes(w: World, site: Site, s: State, deadline: int, future: string, eof: bool)
    requires Clean(StateOf(SubmitJob(w, s, deadline)))
    requires s.ses.parser.status == Complete && site.submit(RequestOf(s.ses.parser)).Accepted? && s.conn.open
    ensures ActionServes(w, site, SubmitJob(w, s, deadline),
                         Outs(s.hist.log) + Follow(site, s.ses.parser, s.conn.input + future, eof), future, eof)
  {
    hide WellFormed, Outs, Serve;
    OutsNote(s.hist.log, Submitted(s.hist.jobs, RequestOf(s.ses.parser)));
  }

  lemma ReplyServes(w: World, site: Site, s: State, future: string, eof: bool)
    requires Plays(w, site) && JobFits(s) && s.ses.parser.status == Complete && s.ses.job.None?
    requires s.ses.close == s.ses.parser.fields.close
    requires !w.submit(s.hist.tick, RequestOf(s.ses.parser)).Accepted?
    ensures ActionServes(w, site, DispatchComplete(w, s),
                         Outs(s.hist.log) + Follow(site, s.ses.parser, s.conn.input + future, eof), future, eof)
  {
    hide WellFormed, Outs, Serve, SubmitJob;
    var r := RequestOf(s.ses.parser);
    assert SameSubmission(w.submit(s.hist.tick, r), site.submit(r));
    assert w.provide(s.hist.tick + 1, r) == site.provide(r);
  }

  lemma CompleteServes(w: World, site: Site, s: State, future: string, eof: bool)
    requires Plays(w, site) && s.ses.parser.status == Complete && s.ses.job.None? && s.conn.open
    requires Clean(StateOf(Dispatch(w, s)))
    ensures ActionServes(w, site, Dispatch(w, s),
                         Outs(s.hist.log) + Follow(site, s.ses.parser, s.conn.input + future, eof), future, eof)
  {
    hide WellFormed, Outs, Serve, ActionServes, SubmitJob, Follow;
    var t := s.(ses := s.ses.(close := s.ses.parser.fields.close, phase := Writing), conn := s.conn.(paused := true));
    var r := RequestOf(s.ses.parser);
    var submission := w.submit(t.hist.tick, r);
    if submission.Accepted? {
      assert SameSubmission(submission, site.submit(r));
      TaskServes(w, site, t.(hist := Ask(t.hist)), submission.deadline, future, eof);
    } else {
      ReplyServes(w, site, t, future, eof);
    }
  }

  lemma ServeNothing(site: Site, p: Parser, eof: bool, completed: bool)
    requires p.status == NeedMore
    ensures Serve(site, p, "", eof, completed) ==
            if !eof || (completed && p.requestBytes == 0) then [] else [Out(Truncated, SiteError(site, p, 400))]
  {
    assert Feed(site.grammar, p, "") == Fed(p, 0);
  }

  lemma TruncatedServes(w: World, site: Site, s: State, future: string, eof: bool)
    requires w.errorContent == site.errorContent && s.ses.job.None? && s.ses.parser.status == NeedMore
    ensures ActionServes(w, site, Dispatch(w, s),
                         Outs(s.hist.log) + [Out(Truncated, SiteError(site, s.ses.parser, 400))],
                         future, eof)
  {
    hide WellFormed, Outs, Serve, DispatchComplete;
  }

  lemma NoMoreServes(w: World, site: Site, s: State, future: string, eof: bool)
    requires JobFits(s) && s.ses.phase == Reading && s.conn.open && !s.conn.output
    ensures ActionServes(w, site, Stop(CloseAfterFlush(s.(ses := s.ses.(phase := Closing)))),
                         Outs(s.hist.log), future, eof)
  {
    hide WellFormed, Outs;
    OutsNote(s.hist.log, Closed);
  }

  lemma NeedMoreServes(w: World, site: Site, s: State, future: string, eof: bool)
    requires Plays(w, site) && JobFits(s) && Future(s, future, eof) && s.ses.phase == Reading
    requires s.ses.job.None? && !s.conn.output && s.ses.parser.status == NeedMore && s.conn.input == "" && s.conn.open
    requires Clean(StateOf(Respond(w, s)))
    ensures ActionServes(w, site, Respond(w, s), Outs(s.hist.log) + Tail(site, s, future, eof), future, eof)
  {
    hide WellFormed, Outs, Serve, Follow, Dispatch, CloseExpired, CloseAfterFlush;
    assert s.conn.input + future == future;
    ExpiredIsUnclean(s);
    ServeNothing(site, s.ses.parser, eof, s.ses.completed);
    if s.conn.eof {
      hide ActionServes;
      assert Outs(s.hist.log) + [] == Outs(s.hist.log);
      if s.ses.completed && s.ses.parser.requestBytes == 0 {
        NoMoreServes(w, site, s, future, eof);
      } else {
        TruncatedServes(w, site, ClearReadDeadline(Checked(s)), future, eof);
      }
    }
  }

  lemma ExpiredIsUnclean(s: State)
    ensures !Clean(CloseExpired(s))
  {
    hide WellFormed;
  }

  lemma RefusalIsUnclean(w: World, s: State)
    ensures !Clean(Refusal(w, s))
  {
    hide WellFormed;
  }

  lemma HeadersServe(w: World, site: Site, s: State, future: string, eof: bool)
    requires Plays(w, site) && s.ses.phase == Reading && s.ses.job.None? && s.ses.parser.status == HeadersComplete
    requires Clean(StateOf(OnRequestHeaders(w, s)))
    ensures ActionServes(w, site, OnRequestHeaders(w, s), Outs(s.hist.log) + Tail(site, s, future, eof), future, eof)
  {
    hide WellFormed, Outs, Serve, Follow, CloseExpired;
    ExpiredIsUnclean(s.(hist := Ask(s.hist)));
    assert w.head(s.hist.tick, HeadOf(s.ses.parser)) == site.head(HeadOf(s.ses.parser));
  }

  lemma HeadServes(w: World, site: Site, s: State, future: string, eof: bool)
    requires Plays(w, site) && s.ses.phase == Reading
    requires s.ses.job.None? && s.ses.parser.status == HeadersComplete
    requires Clean(StateOf(Respond(w, s)))
    ensures ActionServes(w, site, Respond(w, s), Outs(s.hist.log) + Tail(site, s, future, eof), future, eof)
  {
    hide WellFormed, Outs, Serve, Follow, Dispatch, OnRequestHeaders, CloseExpired, ActionServes, Plays;
    ExpiredIsUnclean(s);
    HeadersServe(w, site, Checked(s), future, eof);
  }

  lemma RespondServes(w: World, site: Site, s: State, future: string, eof: bool)
    requires Plays(w, site) && JobFits(s) && Future(s, future, eof) && s.ses.phase == Reading
    requires s.ses.job.None? && !s.conn.output && s.conn.open
    requires s.ses.parser.status == NeedMore ==> s.conn.input == ""
    requires Clean(StateOf(Respond(w, s)))
    ensures ActionServes(w, site, Respond(w, s), Outs(s.hist.log) + Tail(site, s, future, eof), future, eof)
  {
    hide WellFormed, Outs, Follow, Serve, DispatchComplete, OnRequestHeaders;
    var p := s.ses.parser;
    if p.status == NeedMore {
      NeedMoreServes(w, site, s, future, eof);
    } else if p.status == HeadersComplete {
      HeadServes(w, site, s, future, eof);
    } else {
      if p.status == Complete {
        CompleteServes(w, site, ClearReadDeadline(Checked(s)), future, eof);
      }
    }
  }

  /** What `Serve` yields once the input has been fed. */
  function Tail(site: Site, s: State, future: string, eof: bool): seq<Out>
  {
    var p, rest := s.ses.parser, s.conn.input + future;
    if p.status == NeedMore then Serve(site, p, future, eof, s.ses.completed)
    else if p.status == HeadersComplete then
      match SiteHead(site, p)
      case Some(reply) => [Out(HeadOnly(HeadOf(p)), reply)]
      case None => Serve(site, p, rest, eof, s.ses.completed)
    else if p.status == Complete then Follow(site, p, rest, eof)
    else [Out(Malformed(p.status), SiteError(site, p, StatusCode(p.status)))]
  }

  // ----- the recursion -----

  lemma ReadingFacts(w: World, s: State)
    requires Inv(w, s) && !s.conn.destroyed && s.ses.phase == Reading
    ensures Unfinished(s.ses.parser) && s.ses.job.None? && !s.conn.output
  {
    hide ScanAll, Norm, InOrder, Observe, AnswersWhole, WellFormed;
  }

  lemma FeedServes(w: World, site: Site, s: State, future: string, eof: bool)
    requires w.grammar == site.grammar && Unfinished(s.ses.parser)
    ensures Tail(site, FeedInput(w, s), future, eof) ==
            Serve(site, s.ses.parser, s.conn.input + future, eof, s.ses.completed)
  {
    hide WellFormed, Follow, Feed;
    ServeSplit(site, s.ses.parser, s.conn.input, future, eof, s.ses.completed);
  }

  lemma ReceiveServes(w: World, site: Site, s: State, future: string, eof: bool)
    requires Plays(w, site) && Inv(w, s) && JobFits(s) && Future(s, future, eof)
    requires s.conn.open && !s.conn.draining && !s.conn.destroyed && s.ses.phase == Reading
    requires Clean(StateOf(Receive(w, s)))
    ensures CanRead(s)
    ensures ActionServes(w, site, Receive(w, s), Total(site, s, future, eof), future, eof)
  {
    hide WellFormed, Inv, Serve, Tail, Respond, Outs, Feed, Admission, Refusal, CloseExpired, ActionServes;
    ReadingFacts(w, s);
    var c := Checked(s);
    ExpiredIsUnclean(s);
    RefusalIsUnclean(w, c);
    AdmissionCalm(w, c);
    var t := Admission(w, c);
    AdmissionOutput(w, c);
    var u := FeedInput(w, t);
    FeedServes(w, site, t, future, eof);
    RespondServes(w, site, u, future, eof);
  }

  lemma AdmissionOutput(w: World, s: State)
    ensures Admission(w, s).conn.output == s.conn.output && Admission(w, s).conn.open == s.conn.open
  {
  }

  /** From s the session came to t, and all responses are accounted for. */
  ghost predicate Serves(w: World, site: Site, s: State, t: State, total: seq<Out>, future: string, eof: bool) {
    && CanRead(t) && JobFits(t) && Total(site, t, future, eof) == total
    && SameFlags(s, t) && (t.conn.open || t.ses.phase == Closing)
  }

  lemma {:induction false} MessageServes(w: World, site: Site, s: State, future: string, eof: bool)
    requires Plays(w, site) && Inv(w, s) && JobFits(s) && Future(s, future, eof)
    requires s.conn.open && !s.conn.draining && !s.conn.destroyed && s.ses.phase == Reading
    requires CanRead(s) && Clean(OnMessage(w, s))
    ensures CanRead(s) && Serves(w, site, s, OnMessage(w, s), Total(site, s, future, eof), future, eof)
    decreases Size(s) + 2, 2
  {
    hide WellFormed, Inv, Receive, SendFinal, SendInterim, Serve, Outs, Total, ReadyFinal, ReadyInterim, Remaining;
    hide Plays, Sendable, CanRead, Observe, Quiet, WakeOk;
    InvCanRead(w, s);
    ReceiveProgress(w, s);
    ReceiveOk(w, s);
    MessageCleanFrom(w, s);
    ReceiveServes(w, site, s, future, eof);
    ReceiveFlags(w, s);
    var total := Total(site, s, future, eof);
    match Receive(w, s) {
      case Stop(t) =>
      case Answer(t, answered, job, reply) =>
        FinalSendable(w, t, Observe(t.hist.log).value, answered, job, reply);
        FinalServes(w, site, t, answered, job, reply, future, eof, total);
      case Announce(t) =>
        InterimSendable(w, t, Observe(t.hist.log).value);
        InterimServes(w, site, t, future, eof, total);
    }
  }

  /** A clean message was clean up to its first send. */
  lemma MessageCleanFrom(w: World, s: State)
    requires CanRead(s) && Clean(OnMessage(w, s))
    ensures Clean(StateOf(Receive(w, s)))
  {
    hide WellFormed, Receive, Transmit;
    ReceiveProgress(w, s);
    match Receive(w, s) {
      case Stop(t) =>
      case Answer(t, answered, job, reply) =>
        TransmitGrows(w, Answering(t, reply), Final(answered, job, reply), t.hist.tick);
      case Announce(t) =>
        TransmitGrows(w, State(t.ses.(phase := InterimWriting), t.conn, Ask(t.hist)), Interim, t.hist.tick);
    }
  }

  predicate SameFlags(s: State, t: State) {
    t.conn.eof == s.conn.eof && t.conn.draining == s.conn.draining && t.conn.destroyed == s.conn.destroyed
  }

  lemma ReceiveFlags(w: World, s: State)
    ensures SameFlags(s, StateOf(Receive(w, s)))
  {
    hide WellFormed, Respond, Refusal, CloseExpired, Admission, Feed;
    AdmissionFlags(w, s);
    AdmissionFlags(w, Checked(s));
    RespondFlags(w, FeedInput(w, Admission(w, Checked(s))));
  }

  lemma AdmissionFlags(w: World, s: State)
    ensures SameFlags(s, Admission(w, s)) && SameFlags(s, Refusal(w, s)) && SameFlags(s, CloseExpired(s))
  {
    hide WellFormed;
  }

  lemma RespondFlags(w: World, s: State)
    ensures SameFlags(s, StateOf(Respond(w, s)))
  {
    hide WellFormed, Dispatch, OnRequestHeaders;
    DispatchFlags(w, ClearReadDeadline(Checked(s)));
    HeadersFlags(w, Checked(s));
  }

  lemma HeadersFlags(w: World, s: State)
    ensures SameFlags(s, StateOf(OnRequestHeaders(w, s)))
  {
    hide WellFormed;
  }

  lemma DispatchFlags(w: World, s: State)
    ensures SameFlags(s, StateOf(Dispatch(w, s)))
  {
    hide WellFormed;
  }

  lemma {:induction false} FinalServes(w: World, site: Site, s: State, answered: Answered,
                                       job: Option<nat>, reply: Reply,
                                       future: string, eof: bool, total: seq<Out>)
    requires Plays(w, site) && JobFits(s) && Future(s, future, eof) && !s.conn.draining && s.ses.job.None?
    requires Sendable(w, Answering(s, reply), Final(answered, job, reply))
    requires total == Outs(s.hist.log) + ([Out(answered, reply)] +
               (if reply.close then [] else Serve(site, Fresh(), s.conn.input + future, eof, true)))
    requires Clean(SendFinal(w, s, answered, job, reply))
    ensures Serves(w, site, s, SendFinal(w, s, answered, job, reply), total, future, eof)
    decreases if reply.close then 1 else Size(s) + 4, 1
  {
    hide WellFormed, Inv, Outs, Serve, Transmit, Closable, Observe;
    var e := Final(answered, job, reply);
    var t := Answering(s, reply);
    OutsNote(s.hist.log, e);
    var sent := State(t.ses, t.conn, Note(t.hist, e));
    assert Outs(sent.hist.log) + Remaining(site, sent, future, eof) == total;
    TransmitServes(w, site, t, e, s.hist.tick, future, eof, total);
  }

  lemma {:induction false} InterimServes(w: World, site: Site, s: State, future: string, eof: bool, total: seq<Out>)
    requires Plays(w, site) && JobFits(s) && Future(s, future, eof) && !s.conn.draining && s.ses.job.None?
    requires Unfinished(s.ses.parser)
    requires Sendable(w, State(s.ses.(phase := InterimWriting), s.conn, Ask(s.hist)), Interim)
    requires total == Outs(s.hist.log) + Serve(site, s.ses.parser, s.conn.input + future, eof, s.ses.completed)
    requires Clean(SendInterim(w, s))
    ensures Serves(w, site, s, SendInterim(w, s), total, future, eof)
    decreases Size(s) + 4, 1
  {
    hide WellFormed, Inv, Outs, Serve, Transmit, Closable, Observe;
    var t := State(s.ses.(phase := InterimWriting), s.conn, Ask(s.hist));
    OutsNote(s.hist.log, Interim);
    TransmitServes(w, site, t, Interim, s.hist.tick, future, eof, total);
  }

  lemma {:induction false} TransmitServes(w: World, site: Site, s: State, e: Event, tick: nat,
                                          future: string, eof: bool, total: seq<Out>)
    requires Plays(w, site) && JobFits(s) && Future(s, future, eof) && !s.conn.draining
    requires Sendable(w, s, e)
    requires CanRead(s) && Total(site, State(s.ses, s.conn, Note(s.hist, e)), future, eof) == total
    requires Clean(Transmit(w, s, e, tick))
    ensures Serves(w, site, s, Transmit(w, s, e, tick), total, future, eof)
    decreases if s.ses.phase == Writing && s.ses.close then 0 else Size(s) + 3, 1
  {
    hide WellFormed, Inv, Outs, Serve, Closable, Observe, OnWriteComplete;
    RejectedIsUnclean(w, s);
    if w.send(tick).Now? {
      WriteServes(w, site, State(s.ses, s.conn, Note(s.hist, e)), future, eof);
    }
  }

  lemma RejectedIsUnclean(w: World, s: State)
    ensures !Clean(CloseResourceRejected(w, RequestClose(Blamed(s, SendRefused))))
  {
    hide WellFormed;
  }

  lemma {:induction false} WriteServes(w: World, site: Site, s: State, future: string, eof: bool)
    requires Plays(w, site) && Inv(w, s) && JobFits(s) && Future(s, future, eof)
    requires s.conn.open && !s.conn.destroyed && !s.conn.output && !s.conn.draining
    requires s.ses.phase in {Writing, InterimWriting}
    requires CanRead(s) && Clean(OnWriteComplete(w, s))
    ensures CanRead(s) && Serves(w, site, s, OnWriteComplete(w, s), Total(site, s, future, eof), future, eof)
    decreases if s.ses.phase == Writing && s.ses.close then 0 else Size(s) + 3, 0
  {
    hide WellFormed, Inv, Outs, Serve, OnMessage, FinishHistory;
    InvCanRead(w, s);
    var f := s.(hist := Note(s.hist, Flushed));
    OutsNote(s.hist.log, Flushed);
    if s.ses.phase == InterimWriting {
      InterimWrittenInv(w, s);
      MessageServes(w, site, State(s.ses.(phase := Reading), s.conn, Checked(f).hist), future, eof);
    } else {
      FinishCalm(w, f, false);
      var t := FinishPending(w, f, false);
      OutsNote(t.hist.log, Closed);
      if !s.ses.close {
        NextRequestInv(w, s);
        WritingFacts(w, s);
        MessageServes(w, site, State(t.ses.(parser := Fresh(), phase := Reading), s.conn, t.hist), future, eof);
      }
    }
  }

  lemma WritingFacts(w: World, s: State)
    requires Inv(w, s) && !s.conn.destroyed && s.ses.phase == Writing
    ensures s.ses.completed && s.ses.job.None? && s.ses.readDeadline.None?
  {
    hide ScanAll, Norm, InOrder, Observe, AnswersWhole, WellFormed;
  }

  // ----- runs -----

  /** Notifications of a living connection, with nothing sent after an end of input. */
  predicate Proper(inputs: seq<Input>) {
    && (forall k :: 0 <= k < |inputs| ==> !inputs[k].Destroy?)
    && (forall j, k :: 0 <= j < k < |inputs| && EndsInput(inputs[j]) ==> DataOf(inputs[k]) == "")
  }

  predicate EndsInput(i: Input) {
    i.Bytes? && i.eof
  }

  function DataOf(i: Input): string {
    if i.Bytes? then i.data else ""
  }

  function AllData(inputs: seq<Input>): string {
    if inputs == [] then "" else DataOf(inputs[0]) + AllData(inputs[1..])
  }

  predicate AnyEnd(inputs: seq<Input>) {
    exists k :: 0 <= k < |inputs| && EndsInput(inputs[k])
  }

  ghost predicate Undisturbed(w: World, s: State) {
    Good(w, s) && JobFits(s) && !s.conn.draining && !s.conn.destroyed && (s.conn.open || s.ses.phase == Closing)
  }

  lemma CalmPoll(w: World, site: Site, t: nat, job: Job)
    requires Plays(w, site) && PollMishap(w, job, t).None? && PollReply(w, job, t).Some?
    ensures PollReply(w, job, t) == Some(site.task(job.request))
  {
  }

  lemma PollCleanFrom(w: World, s: State, reply: Reply)
    requires s.ses.job.Some?
    requires Clean(SendFinal(w, Polled(w, s), Whole(s.ses.job.value.request), Some(s.ses.job.value.id), reply))
    ensures PollMishap(w, s.ses.job.value, s.hist.tick).None?
  {
    hide WellFormed, Transmit, PollMishap;
    var v, job := Polled(w, s), s.ses.job.value;
    TransmitGrows(w, Answering(v, reply), Final(Whole(job.request), Some(job.id), reply), v.hist.tick);
  }

  lemma PollReplyServes(w: World, site: Site, s: State, reply: Reply, future: string, eof: bool)
    requires Plays(w, site) && Inv(w, s) && JobFits(s) && Future(s, future, eof) && CanRead(s)
    requires s.conn.open && !s.conn.draining && !s.conn.destroyed && s.ses.phase == AwaitingTask && s.ses.job.Some?
    requires PollReply(w, s.ses.job.value, s.hist.tick) == Some(reply)
    requires Clean(SendFinal(w, Polled(w, s), Whole(s.ses.job.value.request), Some(s.ses.job.value.id), reply))
    ensures Serves(w, site, s,
                   SendFinal(w, Polled(w, s), Whole(s.ses.job.value.request), Some(s.ses.job.value.id), reply),
                   Total(site, s, future, eof), future, eof)
  {
    hide WellFormed, Inv, Serve, Outs, SendFinal, Observe, ReadyFinal, Plays, Serves, Sendable, PollReply, PollMishap;
    var job, v := s.ses.job.value, Polled(w, s);
    PolledInv(w, s);
    PollCleanFrom(w, s, reply);
    CalmPoll(w, site, s.hist.tick, job);
    OutsNote(s.hist.log, Cancelled(job.id));
    FinalSendable(w, v, Observe(v.hist.log).value, Whole(job.request), Some(job.id), reply);
    FinalServes(w, site, v, Whole(job.request), Some(job.id), reply, future, eof, Total(site, s, future, eof));
    ServesFrom(w, site, v, s, SendFinal(w, v, Whole(job.request), Some(job.id), reply),
               Total(site, s, future, eof), future, eof);
  }

  lemma ServesFrom(w: World, site: Site, s: State, s': State, t: State, total: seq<Out>, future: string, eof: bool)
    requires Serves(w, site, s, t, total, future, eof) && SameFlags(s, s')
    ensures Serves(w, site, s', t, total, future, eof)
  {
    hide Total, CanRead, JobFits;
  }

  lemma PollServes(w: World, site: Site, s: State, generation: nat, future: string, eof: bool)
    requires Plays(w, site) && Inv(w, s) && JobFits(s) && Future(s, future, eof)
    requires s.conn.open && !s.conn.draining && !s.conn.destroyed
    requires Clean(OnTaskContinuation(w, s, generation))
    ensures CanRead(s) &&
            Serves(w, site, s, OnTaskContinuation(w, s, generation), Total(site, s, future, eof), future, eof)
  {
    hide WellFormed, Inv, Serve, Outs, SendFinal, Plays, Polled, PollReply;
    InvCanRead(w, s);
    if s.ses.phase == AwaitingTask && generation == s.ses.generation && s.ses.job.Some? {
      var reply := PollReply(w, s.ses.job.value, s.hist.tick);
      if reply.Some? {
        PollReplyServes(w, site, s, reply.value, future, eof);
      }
    }
  }

  lemma BytesServe(w: World, site: Site, s: State, data: string, ends: bool, future: string, eof: bool)
    requires Plays(w, site) && Undisturbed(w, s) && s.conn.open
    requires Future(s, data + future, eof) && (ends ==> eof && future == "")
    requires CanRead(s) && Clean(Deliver(w, s, Bytes(data, ends)))
    ensures CanRead(s)
    ensures var t := Deliver(w, s, Bytes(data, ends));
            && CanRead(t) && JobFits(t) && Total(site, t, future, eof) == Total(site, s, data + future, eof)
            && t.conn.eof == (s.conn.eof || ends) && t.conn.draining == s.conn.draining
            && t.conn.destroyed == s.conn.destroyed && (t.conn.open || t.ses.phase == Closing)
  {
    hide WellFormed, Inv, Serve, Outs, Plays, OnMessage;
    InvCanRead(w, s);
    OpenNotStopped(w, s);
    var b := s.(conn := s.conn.(input := s.conn.input + data, eof := s.conn.eof || ends));
    assert s.conn.input + data + future == s.conn.input + (data + future);
    BufferInv(w, s, data, ends);
    if s.ses.phase == Reading {
      MessageServes(w, site, b, future, eof);
    } else {
      IdleMessage(w, b);
    }
  }

  lemma IdleMessage(w: World, s: State)
    requires CanRead(s) && s.ses.phase != Reading
    ensures OnMessage(w, s) == s
  {
  }

  lemma OpenNotStopped(w: World, s: State)
    requires Inv(w, s) && s.conn.open && !s.conn.destroyed && !s.conn.draining
    ensures !s.conn.stopped
  {
    hide ScanAll, Norm, InOrder, Observe, AnswersWhole, WellFormed;
  }

  lemma FlushServes(w: World, site: Site, s: State, future: string, eof: bool)
    requires Plays(w, site) && Undisturbed(w, s) && s.conn.open && Future(s, future, eof)
    requires CanRead(s) && Clean(Deliver(w, s, Written))
    ensures CanRead(s)
    ensures Serves(w, site, s, Deliver(w, s, Written), Total(site, s, future, eof), future, eof)
  {
    hide WellFormed, Inv, Serve, Outs, Plays, OnWriteComplete;
    InvCanRead(w, s);
    if s.conn.output {
      OpenNotStopped(w, s);
      OutputPhase(w, s);
      OutputInv(w, s);
      var b := s.(conn := s.conn.(output := false));
      WriteServes(w, site, b, future, eof);
      OnWriteCompleteInv(w, b);
      var t := OnWriteComplete(w, b);
      if t.conn.open {
        OpenNotStopped(w, t);
      } else {
        assert RequestClose(t).hist == t.hist;
      }
    }
  }

  /** One notification of a clean run accounts for exactly the bytes it brought. */
  lemma DeliverServes(w: World, site: Site, s: State, i: Input, future: string, eof: bool)
    requires Plays(w, site) && Undisturbed(w, s) && !i.Destroy?
    requires s.conn.open ==> Future(s, DataOf(i) + future, eof)
    requires EndsInput(i) ==> eof && future == ""
    requires CanRead(s) && Clean(Deliver(w, s, i))
    ensures CanRead(s) && CanRead(Deliver(w, s, i)) && Undisturbed(w, Deliver(w, s, i))
    ensures Total(site, Deliver(w, s, i), future, eof) == Total(site, s, DataOf(i) + future, eof)
    ensures Deliver(w, s, i).conn.open ==> s.conn.open && Deliver(w, s, i).conn.eof == (s.conn.eof || EndsInput(i))
  {
    hide WellFormed, Inv, Serve, Outs, Plays, OnMessage, OnFlushed, OnTaskContinuation, Total;
    InvCanRead(w, s);
    DeliverInv(w, s, i);
    InvCanRead(w, Deliver(w, s, i));
    if !s.conn.open {
      ClosedTotal(site, s, DataOf(i) + future, future, eof);
    } else {
      match i {
        case Bytes(data, ends) => BytesServe(w, site, s, data, ends, future, eof);
        case Written => assert DataOf(i) + future == future; FlushServes(w, site, s, future, eof);
        case Continuation(generation) =>
          assert DataOf(i) + future == future;
          WakeSpentInv(w, s);
          var u := s.(conn := s.conn.(wake := None));
          WakeTotal(site, s, future, eof);
          if s.conn.wake.Some? && s.conn.wake.value.generation == generation {
            PollServes(w, site, u, generation, future, eof);
          } else {
            PollServes(w, site, s, generation, future, eof);
          }
        case _ =>
      }
    }
  }

  lemma WakeTotal(site: Site, s: State, future: string, eof: bool)
    requires CanRead(s)
    ensures Total(site, s.(conn := s.conn.(wake := None)), future, eof) == Total(site, s, future, eof)
  {
  }

  lemma ClosedTotal(site: Site, s: State, a: string, b: string, eof: bool)
    requires CanRead(s) && s.ses.phase == Closing
    ensures Total(site, s, a, eof) == Total(site, s, b, eof)
  {
  }

  lemma DataSuffix(inputs: seq<Input>, k: nat)
    requires k < |inputs|
    ensures AllData(inputs[k..]) == DataOf(inputs[k]) + AllData(inputs[k + 1..])
  {
    assert inputs[k..][1..] == inputs[k + 1..];
  }

  lemma {:induction false} NoDataAfterEnd(inputs: seq<Input>, k: nat)
    requires k <= |inputs| && forall j :: k <= j < |inputs| ==> DataOf(inputs[j]) == ""
    ensures AllData(inputs[k..]) == ""
    decreases |inputs| - k
  {
    if k < |inputs| {
      DataSuffix(inputs, k);
      NoDataAfterEnd(inputs, k + 1);
    }
  }

  /** Along a clean run, what was answered and what is still to come add up to the reference. */
  lemma {:induction false} PrefixServes(w: World, site: Site, inputs: seq<Input>, k: nat)
    requires Plays(w, site) && Proper(inputs) && k <= |inputs|
    requires Clean(Run(w, inputs[..k]))
    ensures var s := Run(w, inputs[..k]);
            && Undisturbed(w, s)
            && (s.conn.open ==> (s.conn.eof <==> AnyEnd(inputs[..k])))
            && Total(site, s, AllData(inputs[k..]), AnyEnd(inputs)) ==
               Serve(site, Fresh(), AllData(inputs), AnyEnd(inputs), false)
  {
    hide Plays, Deliver, Good, Serve, WellFormed, Inv, Proper, AnyEnd, Clean, Total;
    if k == 0 {
      StartServes(w, site, inputs);
    } else {
      assert inputs[..k] == inputs[..k - 1] + [inputs[k - 1]];
      CleanBefore(w, inputs, k);
      PrefixServes(w, site, inputs, k - 1);
      var s, i := Run(w, inputs[..k - 1]), inputs[k - 1];
      assert inputs[..k][..k - 1] == inputs[..k - 1];
      DataSuffix(inputs, k - 1);
      SilentAfterEnd(inputs, k - 1);
      SilentAfterEnd(inputs, k);
      EndsWith(inputs, k);
      ProperAt(inputs, k - 1);
      DeliverServes(w, site, s, i, AllData(inputs[k..]), AnyEnd(inputs));
    }
  }

  lemma StartServes(w: World, site: Site, inputs: seq<Input>)
    ensures var s := Run(w, inputs[..0]);
            && Undisturbed(w, s) && (s.conn.eof <==> AnyEnd(inputs[..0]))
            && Total(site, s, AllData(inputs[0..]), AnyEnd(inputs)) ==
               Serve(site, Fresh(), AllData(inputs), AnyEnd(inputs), false)
  {
    hide Serve, WellFormed, Inv;
    assert inputs[..0] == [] && inputs[0..] == inputs;
    StartGood(w);
    assert "" + AllData(inputs) == AllData(inputs);
  }

  lemma ProperAt(inputs: seq<Input>, k: nat)
    requires Proper(inputs) && k < |inputs|
    ensures !inputs[k].Destroy?
  {
  }

  lemma CleanBefore(w: World, inputs: seq<Input>, k: nat)
    requires 0 < k <= |inputs| && Clean(Run(w, inputs[..k]))
    ensures Clean(Run(w, inputs[..k - 1]))
  {
    hide Run;
    assert inputs[..k] == inputs[..k - 1] + [inputs[k - 1]];
    RunGrows(w, inputs[..k - 1], [inputs[k - 1]]);
  }

  /** Nothing arrives once the input has ended. */
  lemma SilentAfterEnd(inputs: seq<Input>, k: nat)
    requires Proper(inputs) && k <= |inputs|
    ensures AnyEnd(inputs[..k]) ==> AllData(inputs[k..]) == "" && AnyEnd(inputs)
  {
    hide AllData, DataOf;
    if AnyEnd(inputs[..k]) {
      var j :| 0 <= j < k && EndsInput(inputs[..k][j]);
      assert EndsInput(inputs[j]);
      NoDataAfterEnd(inputs, k);
    }
  }

  lemma EndsWith(inputs: seq<Input>, k: nat)
    requires 0 < k <= |inputs|
    ensures AnyEnd(inputs[..k]) <==> AnyEnd(inputs[..k - 1]) || EndsInput(inputs[k - 1])
  {
    if AnyEnd(inputs[..k - 1]) {
      var j :| 0 <= j < k - 1 && EndsInput(inputs[..k - 1][j]);
      assert EndsInput(inputs[..k][j]);
    }
    if EndsInput(inputs[k - 1]) {
      assert EndsInput(inputs[..k][k - 1]);
    }
    if AnyEnd(inputs[..k]) {
      var j :| 0 <= j < k && EndsInput(inputs[..k][j]);
      assert j < k - 1 ==> EndsInput(inputs[..k - 1][j]);
    }
  }

  /** Nothing in flight and no task awaited. */
  predicate AtRest(s: State) {
    s.ses.phase == Reading || s.ses.phase == Closing
  }

  /** A clean run that has settled has answered exactly what the reference answers. */
  lemma RunServes(w: World, site: Site, inputs: seq<Input>)
    requires Plays(w, site) && Proper(inputs) && Clean(Run(w, inputs)) && AtRest(Run(w, inputs))
    ensures Outs(Run(w, inputs).hist.log) == Serve(site, Fresh(), AllData(inputs), AnyEnd(inputs), false)
  {
    hide Plays, Run, Inv, Serve, WellFormed;
    assert inputs[..|inputs|] == inputs;
    PrefixServes(w, site, inputs, |inputs|);
    assert AllData(inputs[|inputs|..]) == "";
    var s := Run(w, inputs);
    if s.conn.open && s.ses.phase == Reading {
      assert s.conn.input + "" == "";
      ReadingFacts(w, s);
      ServeSettled(site, s.ses.parser, s.ses.completed);
    }
  }

  lemma ServeSettled(site: Site, p: Parser, completed: bool)
    requires Unfinished(p)
    ensures Serve(site, p, "", false, completed) == []
  {
  }

  /** The reentrant and the event-driven form agree: two clean runs of one application that differ in
      when sends complete (at once, later, or any mixture), in the clock and in how often a task is
      polled give the same responses to the same bytes, however either was cut into reads. */
  lemma ScheduleIndependence(w1: World, w2: World, site: Site, inputs1: seq<Input>, inputs2: seq<Input>)
    requires Plays(w1, site) && Plays(w2, site) && Proper(inputs1) && Proper(inputs2)
    requires Clean(Run(w1, inputs1)) && Clean(Run(w2, inputs2))
    requires AllData(inputs1) == AllData(inputs2) && AnyEnd(inputs1) == AnyEnd(inputs2)
    requires AtRest(Run(w1, inputs1)) && AtRest(Run(w2, inputs2))
    ensures Outs(Run(w1, inputs1).hist.log) == Outs(Run(w2, inputs2).hist.log)
  {
    hide Plays, Run, Serve;
    RunServes(w1, site, inputs1);
    RunServes(w2, site, inputs2);
  }

  // ----- the reentrant form on its own -----

  ghost predicate Immediate(w: World) {
    forall t: nat :: w.send(t) == Now
  }

  predicate NoneInFlight(s: State) {
    s.ses.phase !in {Writing, InterimWriting}
  }

  /** A session at rest that is writing has output queued, and then some send completes later. */
  ghost predicate Rests(w: World, s: State) {
    NoneInFlight(s) || (s.conn.output && !Immediate(w))
  }

  predicate Lands(a: Action) {
    a.Stop? ==> NoneInFlight(a.s)
  }

  lemma DispatchLands(w: World, s: State)
    ensures Lands(Dispatch(w, s)) && Lands(OnRequestHeaders(w, s))
  {
    hide WellFormed;
  }

  lemma RespondLands(w: World, s: State)
    requires NoneInFlight(s)
    ensures Lands(Respond(w, s))
  {
    hide WellFormed, Dispatch, OnRequestHeaders;
    DispatchLands(w, ClearReadDeadline(Checked(s)));
    DispatchLands(w, Checked(s));
  }

  lemma ReceiveLands(w: World, s: State)
    requires NoneInFlight(s)
    ensures Lands(Receive(w, s))
  {
    hide WellFormed, Feed, Admission, Respond, CloseResourceRejected;
    AdmissionPhase(w, Checked(s));
    RejectPhase(w, Refusing(w, Checked(s)));
    RespondLands(w, FeedInput(w, Admission(w, Checked(s))));
  }

  function Refusing(w: World, s: State): State {
    var t := Opened(w, s);
    State(t.ses, t.conn, Blame(Note(Ask(t.hist), Refused), BudgetRefused))
  }

  lemma RejectPhase(w: World, s: State)
    ensures CloseResourceRejected(w, s).ses.phase == Closing
  {
  }

  lemma AdmissionPhase(w: World, s: State)
    ensures Admission(w, s).ses.phase == s.ses.phase
  {
  }

  lemma {:induction false} MessageLands(w: World, s: State)
    requires CanRead(s) && Rests(w, s)
    ensures Rests(w, OnMessage(w, s))
    decreases Size(s) + 2, 2
  {
    hide WellFormed, Receive, Transmit, Immediate;
    ReceiveProgress(w, s);
    if NoneInFlight(s) {
      ReceiveLands(w, s);
    } else {
      IdleReceive(w, s);
    }
    match Receive(w, s) {
      case Stop(t) =>
      case Answer(t, answered, job, reply) =>
        TransmitLands(w, Answering(t, reply), Final(answered, job, reply), t.hist.tick);
      case Announce(t) =>
        TransmitLands(w, State(t.ses.(phase := InterimWriting), t.conn, Ask(t.hist)), Interim, t.hist.tick);
    }
  }

  lemma {:induction false} TransmitLands(w: World, s: State, e: Event, tick: nat)
    requires CanRead(s)
    ensures Rests(w, Transmit(w, s, e, tick))
    decreases if s.ses.phase == Writing && s.ses.close then 0 else Size(s) + 3, 1
  {
    hide WellFormed, OnWriteComplete, CloseResourceRejected;
    RejectPhase(w, RequestClose(Blamed(s, SendRefused)));
    if w.send(tick).Now? {
      WriteLands(w, State(s.ses, s.conn, Note(s.hist, e)));
    }
  }

  lemma {:induction false} WriteLands(w: World, s: State)
    requires CanRead(s)
    ensures Rests(w, OnWriteComplete(w, s))
    decreases if s.ses.phase == Writing && s.ses.close then 0 else Size(s) + 3, 0
  {
    hide WellFormed, OnMessage, FinishHistory, Immediate;
    var f := s.(hist := Note(s.hist, Flushed));
    if s.ses.phase == InterimWriting {
      if !s.conn.draining && !Expired(w, f) {
        MessageLands(w, State(s.ses.(phase := Reading), s.conn, Checked(f).hist));
      }
    } else if s.ses.phase == Writing && !s.ses.close && !s.conn.draining {
      var t := FinishPending(w, f, false);
      MessageLands(w, State(t.ses.(parser := Fresh(), phase := Reading), s.conn, t.hist));
    }
  }

  lemma IdleReceive(w: World, s: State)
    requires s.ses.phase != Reading
    ensures Receive(w, s) == Stop(s)
  {
  }

  lemma FlushLands(w: World, s: State)
    requires Good(w, s) && s.conn.open && !s.conn.destroyed && s.conn.output
    ensures CanRead(s) && Rests(w, OnFlushed(w, s))
  {
    hide WellFormed, OnWriteComplete, Immediate, Inv;
    InvCanRead(w, s);
    WriteLands(w, s.(conn := s.conn.(output := false)));
    if !s.conn.draining {
      OpenNotStopped(w, s);
    }
  }

  lemma DeliverLands(w: World, s: State, i: Input)
    requires Good(w, s) && CanRead(s) && Rests(w, s)
    ensures Rests(w, Deliver(w, s, i))
  {
    hide WellFormed, Inv, OnMessage, OnFlushed, OnTaskContinuation, FinishHistory, Immediate;
    if !s.conn.destroyed && s.conn.open {
      match i {
        case Bytes(data, eof) =>
          MessageLands(w, s.(conn := s.conn.(input := s.conn.input + data, eof := s.conn.eof || eof)));
        case Written =>
          if s.conn.output {
            FlushLands(w, s);
          }
        case Continuation(generation) =>
          PollLands(w, s, generation);
          PollLands(w, s.(conn := s.conn.(wake := None)), generation);
        case _ =>
      }
    }
  }

  lemma PollLands(w: World, s: State, generation: nat)
    requires Rests(w, s)
    ensures Rests(w, OnTaskContinuation(w, s, generation))
  {
    hide WellFormed, Transmit, Immediate, Polled;
    if s.ses.phase == AwaitingTask && s.ses.job.Some? {
      var job, v := s.ses.job.value, Polled(w, s);
      var reply := PollReply(w, job, s.hist.tick);
      if reply.Some? {
        TransmitLands(w, Answering(v, reply.value), Final(Whole(job.request), Some(job.id), reply.value), v.hist.tick);
      }
    }
  }

  /** A session at rest is never left writing with nothing queued; with sends that all complete at once
      it is never left writing at all. */
  lemma {:induction false} RunLands(w: World, inputs: seq<Input>)
    ensures Rests(w, Run(w, inputs))
  {
    hide Deliver, CanRead, Immediate, Inv;
    if inputs != [] {
      RunLands(w, inputs[..|inputs| - 1]);
      DeliverLands(w, Run(w, inputs[..|inputs| - 1]), inputs[|inputs| - 1]);
    }
  }

  /** When every send completes at once, the recursion leaves nothing in flight: after every
      notification of a clean run, unless a task is awaited, the responses so far are exactly
      those the reference gives to the bytes so far. */
  lemma ReentrantFormServes(w: World, site: Site, inputs: seq<Input>)
    requires Immediate(w) && Plays(w, site) && Proper(inputs) && Clean(Run(w, inputs))
    requires Run(w, inputs).ses.phase != AwaitingTask
    ensures Outs(Run(w, inputs).hist.log) == Serve(site, Fresh(), AllData(inputs), AnyEnd(inputs), false)
  {
    hide Plays, Run, Serve, Outs;
    RunLands(w, inputs);
    RunServes(w, site, inputs);
  }
}
