/**
 The HTTP session over one connection, after `app/HttpConnectionHandler.cpp` and the part of
 `src/net/TcpConnection.cpp` it talks to.

 `State` is the session, its connection and the history both have produced.  Everything the
 session cannot decide (clock, budget, transport, providers, executor) is read from a `World`:
 each question is asked at a fresh `tick`, so quantifying over worlds quantifies over every
 behaviour of the environment.  A send may be refused with the resource error, complete later,
 or complete at once; completing at once re-enters `OnWriteComplete` and from there `OnMessage`,
 so the functions below are mutually recursive exactly as the source is.
 */
module Session {
  import opened Basics
  import opened RequestParsing

  datatype Phase = Reading | InterimWriting | AwaitingTask | Writing | Closing

  const TASK_POLL_NS := 5000000

  /** A response: its connection policy, status and planned content length. */
  datatype Reply = Reply(close: bool, status: nat, content: nat)

  datatype Verdict = Admit | Deny(reply: Reply) | HeadThrows
  datatype Submission = Synchronous | Immediate(reply: Reply) | Accepted(deadline: int) | SubmitThrows
  datatype Provided = Provided(reply: Reply) | ProviderThrows
  datatype Collected = NotReady | Ready(reply: Reply) | CollectThrows
  datatype Delivery = Rejected | Now | Later

  datatype World = World(
    grammar: Grammar, readTimeout: nat, budgeted: bool, errorContent: nat -> nat,
    now: nat -> int,
    acquire: nat -> bool,
    send: nat -> Delivery,
    head: (nat, Head) -> Verdict,
    submit: (nat, Request) -> Submission,
    provide: (nat, Request) -> Provided,
    arm: nat -> bool,
    collect: (nat, Job) -> Collected)

  datatype Job = Job(id: nat, deadline: int, request: Request)
  datatype Wake = Wake(at: int, generation: nat)

  /** What a final response answers. */
  datatype Answered = Whole(request: Request) | HeadOnly(head: Head) | Malformed(status: Status) | Truncated

  datatype Event =
    | Began(time: int) | Acquired | Refused | Released
    | Finished(aborted: bool, status: nat, content: nat, duration: nat)
    | Interim
    | Final(answered: Answered, job: Option<nat>, reply: Reply)
    | Submitted(id: nat, request: Request) | Cancelled(id: nat)
    | Flushed | Draining | Closed

  datatype Session = Session(
    phase: Phase, completed: bool, close: bool, pending: bool, started: int,
    readDeadline: Option<int>, job: Option<Job>, generation: nat, lease: bool,
    status: nat, content: nat, parser: Parser)

  datatype Conn = Conn(
    input: string, eof: bool, draining: bool, open: bool, paused: bool, stopped: bool,
    output: bool, deadline: Option<int>, wake: Option<Wake>, destroyed: bool)

  /** What can keep a session from answering as its application would. */
  datatype Mishap = BudgetRefused | SendRefused | ReadExpired | TaskOverdue | TaskThrew | ArmFailed | Drained

  datatype History = History(tick: nat, jobs: nat, consumed: string, log: seq<Event>, mishaps: seq<Mishap>)

  datatype State = State(ses: Session, conn: Conn, hist: History)

  const START := State(
    Session(Reading, false, false, false, 0, None, None, 0, false, 0, 0, Fresh()),
    Conn("", false, false, true, false, false, false, None, None, false),
    History(0, 0, "", [], []))

  // ----- connection operations -----

  function Note(h: History, e: Event): History {
    h.(log := h.log + [e])
  }

  function Ask(h: History): History {
    h.(tick := h.tick + 1)
  }

  function Blame(h: History, m: Mishap): History {
    h.(mishaps := h.mishaps + [m])
  }

  function Blamed(s: State, m: Mishap): State {
    s.(hist := Blame(s.hist, m))
  }

  function RequestClose(s: State): State {
    State(s.ses, s.conn.(open := false, deadline := None, wake := None),
          if s.conn.open then Note(s.hist, Closed) else s.hist)
  }

  function CloseAfterFlush(s: State): State {
    var t := s.(conn := s.conn.(stopped := true));
    if s.conn.output then t else RequestClose(t)
  }

  function SetDeadline(c: Conn, deadline: Option<int>): Conn {
    if !c.open || c.draining then c else c.(deadline := deadline)
  }

  function ClearReadDeadline(s: State): State {
    State(s.ses.(readDeadline := None), SetDeadline(s.conn, None), s.hist)
  }

  // ----- session helpers -----

  function FinishHistory(w: World, s: State, aborted: bool): History {
    var h := if s.ses.lease then Note(s.hist, Released) else s.hist;
    if !s.ses.pending then h
    else
      Note(Ask(h), Finished(aborted, s.ses.status, s.ses.content, Max(0, w.now(h.tick) - s.ses.started)))
  }

  function FinishPending(w: World, s: State, aborted: bool): State {
    State(s.ses.(lease := false, pending := false), s.conn, FinishHistory(w, s, aborted))
  }

  function CloseResourceRejected(w: World, s: State): State {
    var t := ClearReadDeadline(s.(ses := s.ses.(phase := Closing, completed := false, status := 0, content := 0)));
    RequestClose(FinishPending(w, t, true))
  }

  predicate Expired(w: World, s: State) {
    s.ses.readDeadline.Some? && s.ses.readDeadline.value <= w.now(s.hist.tick)
  }

  /** The clock is read only when a deadline is set. */
  function Checked(s: State): State {
    State(s.ses, s.conn, if s.ses.readDeadline.Some? then Ask(s.hist) else s.hist)
  }

  function CloseExpired(s: State): State {
    var t := Blamed(Checked(s), ReadExpired);
    RequestClose(ClearReadDeadline(t.(ses := t.ses.(phase := Closing))))
  }

  function ErrorReply(w: World, p: Parser, status: nat): Reply {
    Reply(true, status, if IsHead(p) then 0 else w.errorContent(status))
  }

  const TIMEOUT_REPLY := Reply(true, 503, |"{\"error\":\"task_timeout\"}"|)
  const FAILURE_REPLY :=
    Reply(true, 500, |"{\"error\":{\"code\":\"internal_error\",\"message\":\"Internal error\"}}"|)

  // ----- one input notification, up to its first send -----

  datatype Action =
    | Stop(s: State)
    | Answer(s: State, answered: Answered, job: Option<nat>, reply: Reply)
    | Announce(s: State)

  /** The first non-empty input of a request opens it. */
  predicate Opens(s: State) {
    !s.ses.pending && s.conn.input != ""
  }

  function Opened(w: World, s: State): State {
    State(s.ses.(pending := true, started := w.now(s.hist.tick), status := 0, content := 0), s.conn,
          Note(Ask(s.hist), Began(w.now(s.hist.tick))))
  }

  predicate Admitted(w: World, s: State) {
    Opens(s) && w.budgeted ==> w.acquire(Opened(w, s).hist.tick)
  }

  function Refusal(w: World, s: State): State {
    var t := Opened(w, s);
    CloseResourceRejected(w, State(t.ses, t.conn, Blame(Note(Ask(t.hist), Refused), BudgetRefused)))
  }

  function Admission(w: World, s: State): State {
    if !Opens(s) then s
    else
      var t := Opened(w, s);
      var due := if w.readTimeout == 0 then t.ses.readDeadline else Some(t.ses.started + w.readTimeout);
      State(t.ses.(lease := w.budgeted, readDeadline := due),
            if w.readTimeout == 0 then t.conn else SetDeadline(t.conn, due),
            if w.budgeted then Note(Ask(t.hist), Acquired) else t.hist)
  }

  function ArmContinuation(w: World, s: State): State
    requires s.ses.job.Some?
  {
    var at := Min(w.now(s.hist.tick) + TASK_POLL_NS, s.ses.job.value.deadline);
    State(s.ses, s.conn.(wake := Some(Wake(at, s.ses.generation))), Ask(s.hist))
  }

  function DropJob(s: State): State
    requires s.ses.job.Some?
  {
    State(s.ses.(job := None), s.conn.(wake := None), Note(s.hist, Cancelled(s.ses.job.value.id)))
  }

  function JobSubmitted(s: State, deadline: int): State {
    var request := RequestOf(s.ses.parser);
    State(s.ses.(job := Some(Job(s.hist.jobs, deadline, request)), generation := s.ses.generation + 1,
                 phase := AwaitingTask),
          s.conn,
          Note(s.hist.(jobs := s.hist.jobs + 1), Submitted(s.hist.jobs, request)))
  }

  function SubmitJob(w: World, s: State, deadline: int): Action {
    var t := JobSubmitted(s, deadline);
    if w.arm(t.hist.tick) then Stop(ArmContinuation(w, t))
    else
      var u := DropJob(t);
      Answer(u.(hist := Blame(Ask(u.hist), ArmFailed)),
             Whole(RequestOf(s.ses.parser)), Some(s.hist.jobs), FAILURE_REPLY)
  }

  function ProvideReply(w: World, ses: Session, tick: nat): Reply {
    match w.provide(tick, RequestOf(ses.parser))
    case ProviderThrows => ErrorReply(w, ses.parser, 500)
    case Provided(reply) => if ses.close && !reply.close then ErrorReply(w, ses.parser, 500) else reply
  }

  function DispatchComplete(w: World, s: State): Action {
    var request := RequestOf(s.ses.parser);
    var t := s.(hist := Ask(s.hist));
    match w.submit(s.hist.tick, request)
    case Synchronous =>
      Answer(t.(hist := Ask(t.hist)), Whole(request), None, ProvideReply(w, s.ses, t.hist.tick))
    case Immediate(reply) => Answer(t, Whole(request), None, reply)
    case Accepted(deadline) => SubmitJob(w, t, deadline)
    case SubmitThrows => Answer(t, Whole(request), None, ErrorReply(w, s.ses.parser, 500))
  }

  function StatusCode(status: Status): nat {
    match status
    case PayloadTooLarge => 413
    case ExpectationFailed => 417
    case NotImplemented => 501
    case _ => 400
  }

  /** The request is over, for better or worse: reading pauses and the response is chosen. */
  function Dispatch(w: World, s: State): Action {
    var p := s.ses.parser;
    var t := s.(ses := s.ses.(close := p.status != Complete || p.fields.close, phase := Writing),
                conn := s.conn.(paused := true));
    if p.status == Complete then DispatchComplete(w, t)
    else
      Answer(t, if p.status == NeedMore then Truncated else Malformed(p.status), None,
             ErrorReply(w, p, StatusCode(p.status)))
  }

  function HeadReply(w: World, p: Parser, tick: nat): Option<Reply> {
    match w.head(tick, HeadOf(p))
    case Admit => None
    case Deny(reply) => Some(if reply.close then reply else ErrorReply(w, p, 500))
    case HeadThrows => Some(ErrorReply(w, p, 500))
  }

  function OnRequestHeaders(w: World, s: State): Action {
    var denied := HeadReply(w, s.ses.parser, s.hist.tick);
    var t := s.(hist := Ask(s.hist));
    if Expired(w, t) then Stop(CloseExpired(t))
    else
      var u := Checked(t).(conn := t.conn.(paused := true));
      if denied.None? then Announce(u)
      else Answer(ClearReadDeadline(u), HeadOnly(HeadOf(s.ses.parser)), None, denied.value)
  }

  function FeedInput(w: World, s: State): State {
    var fed := Feed(w.grammar, s.ses.parser, s.conn.input);
    State(s.ses.(parser := fed.parser), s.conn.(input := s.conn.input[fed.accepted..]),
          s.hist.(consumed := s.hist.consumed + s.conn.input[..fed.accepted]))
  }

  /** What follows a feed. */
  function Respond(w: World, s: State): Action {
    var p := s.ses.parser;
    if p.status == NeedMore && !s.conn.eof then Stop(s.(conn := s.conn.(paused := false)))
    else if p.status == NeedMore && s.ses.completed && p.requestBytes == 0 then
      Stop(CloseAfterFlush(s.(ses := s.ses.(phase := Closing))))
    else if Expired(w, s) then Stop(CloseExpired(s))
    else if p.status == HeadersComplete then OnRequestHeaders(w, Checked(s))
    else Dispatch(w, ClearReadDeadline(Checked(s)))
  }

  function Receive(w: World, s: State): Action {
    if s.ses.phase != Reading || s.conn.draining then Stop(s)
    else if Expired(w, s) then Stop(CloseExpired(s))
    else
      var t := Checked(s);
      if !Admitted(w, t) then Stop(Refusal(w, t)) else Respond(w, FeedInput(w, Admission(w, t)))
  }

  /** The parser of a session that reads is never finished: a finished one is reset first. */
  predicate CanRead(s: State) {
    s.ses.phase in {Reading, InterimWriting} ==> Unfinished(s.ses.parser)
  }

  predicate Progress(a: Action, n: nat) {
    match a
    case Stop(t) => true
    case Answer(t, _, _, reply) => reply.close || |t.conn.input| < n
    case Announce(t) => |t.conn.input| < n && Unfinished(t.ses.parser)
  }

  lemma RespondProgress(w: World, s: State, n: nat)
    requires s.ses.parser.status in {Complete, HeadersComplete} ==> |s.conn.input| < n
    ensures Progress(Respond(w, s), n)
  {
  }

  /** Every send that leads back to reading has consumed input. */
  lemma ReceiveProgress(w: World, s: State)
    requires CanRead(s)
    ensures Progress(Receive(w, s), |s.conn.input|)
  {
    hide Respond, Refusal, WellFormed, Feed, CloseExpired, Admission;
    if s.ses.phase == Reading {
      var a := Admission(w, Checked(s));
      AdmissionReads(w, Checked(s));
      FeedConsumes(w, a);
      RespondProgress(w, FeedInput(w, a), |s.conn.input|);
    }
  }

  lemma AdmissionReads(w: World, s: State)
    ensures Admission(w, s).conn.input == s.conn.input && Admission(w, s).ses.parser == s.ses.parser
  {
    hide WellFormed;
  }

  lemma FeedConsumes(w: World, s: State)
    requires Unfinished(s.ses.parser)
    ensures FeedInput(w, s).ses.parser.status in {Complete, HeadersComplete} ==>
              |FeedInput(w, s).conn.input| < |s.conn.input|
  {
    hide WellFormed, Feed;
  }

  // ----- the reentrant core -----

  function Size(s: State): nat {
    3 * |s.conn.input|
  }

  function OnMessage(w: World, s: State): State
    requires CanRead(s)
    decreases Size(s) + 2
  {
    ReceiveProgress(w, s);
    var a := Receive(w, s);
    match a
    case Stop(t) => t
    case Answer(t, answered, job, reply) => SendFinal(w, t, answered, job, reply)
    case Announce(t) => SendInterim(w, t)
  }

  /** The state fixed before a final response is handed to the transport. */
  function Answering(s: State, reply: Reply): State {
    State(s.ses.(phase := Writing, close := reply.close, status := reply.status, content := reply.content,
                 completed := true),
          s.conn, Ask(s.hist))
  }

  function SendFinal(w: World, s: State, answered: Answered, job: Option<nat>, reply: Reply): State
    decreases if reply.close then 1 else Size(s) + 4
  {
    Transmit(w, Answering(s, reply), Final(answered, job, reply), s.hist.tick)
  }

  function SendInterim(w: World, s: State): State
    requires Unfinished(s.ses.parser)
    decreases Size(s) + 4
  {
    Transmit(w, State(s.ses.(phase := InterimWriting), s.conn, Ask(s.hist)), Interim, s.hist.tick)
  }

  function Transmit(w: World, s: State, e: Event, tick: nat): State
    requires CanRead(s)
    decreases if s.ses.phase == Writing && s.ses.close then 0 else Size(s) + 3, 1
  {
    match w.send(tick)
    case Rejected => CloseResourceRejected(w, RequestClose(Blamed(s, SendRefused)))
    case Later => State(s.ses, s.conn.(output := true), Note(s.hist, e))
    case Now => OnWriteComplete(w, State(s.ses, s.conn, Note(s.hist, e)))
  }

  function OnWriteComplete(w: World, s: State): State
    requires CanRead(s)
    decreases if s.ses.phase == Writing && s.ses.close then 0 else Size(s) + 3, 0
  {
    var f := s.(hist := Note(s.hist, Flushed));
    if s.ses.phase == InterimWriting then
      if s.conn.draining then
        CloseAfterFlush(FinishPending(w, ClearReadDeadline(f.(ses := s.ses.(phase := Closing))), true))
      else if Expired(w, f) then CloseExpired(f)
      else OnMessage(w, State(s.ses.(phase := Reading), s.conn, Checked(f).hist))
    else if s.ses.phase != Writing then f
    else
      var t := FinishPending(w, f, false);
      if s.ses.close || s.conn.draining then CloseAfterFlush(t.(ses := t.ses.(phase := Closing)))
      else OnMessage(w, State(t.ses.(parser := Fresh(), phase := Reading), s.conn, t.hist))
  }

  /** What a poll decided: nothing yet, or the reply to send. */
  function PollReply(w: World, job: Job, tick: nat): Option<Reply> {
    var collected := if w.now(tick) < job.deadline then w.collect(tick, job) else NotReady;
    if collected.CollectThrows? then Some(FAILURE_REPLY)
    else if job.deadline <= w.now(tick + 1) then Some(TIMEOUT_REPLY)
    else if collected.Ready? then Some(collected.reply)
    else if w.arm(tick + 2) then None
    else Some(FAILURE_REPLY)
  }

  /** What was wrong with a poll, if it replies with something other than the result. */
  function PollMishap(w: World, job: Job, tick: nat): Option<Mishap> {
    var collected := if w.now(tick) < job.deadline then w.collect(tick, job) else NotReady;
    if collected.CollectThrows? then Some(TaskThrew)
    else if job.deadline <= w.now(tick + 1) then Some(TaskOverdue)
    else if collected.Ready? || w.arm(tick + 2) then None
    else Some(ArmFailed)
  }

  /** The job is dropped before its reply is sent. */
  function Polled(w: World, s: State): State
    requires s.ses.job.Some?
  {
    var u := DropJob(s.(hist := s.hist.(tick := s.hist.tick + 2)));
    var mishap := PollMishap(w, s.ses.job.value, s.hist.tick);
    u.(hist := if mishap.None? then Ask(u.hist) else Blame(Ask(u.hist), mishap.value))
  }

  function OnTaskContinuation(w: World, s: State, generation: nat): State
  {
    if s.ses.phase != AwaitingTask || generation != s.ses.generation || s.conn.draining || s.ses.job.None? then s
    else
      var job := s.ses.job.value;
      var t := s.(hist := s.hist.(tick := s.hist.tick + 2));
      match PollReply(w, job, s.hist.tick)
      case None => ArmContinuation(w, t)
      case Some(reply) => SendFinal(w, Polled(w, s), Whole(job.request), Some(job.id), reply)
  }

  // ----- what the event loop delivers -----

  datatype Input =
    | Bytes(data: string, eof: bool) | Written | Continuation(generation: nat) | Drain | Expire | Destroy

  function BeginDrain(s: State): State {
    var t := State(s.ses,
      s.conn.(draining := true, wake := None, deadline := None, stopped := true, paused := true),
      Blame(Note(s.hist, Draining), Drained));
    if s.conn.draining then s else if s.conn.output then t else RequestClose(t)
  }

  function OnFlushed(w: World, s: State): State
    requires CanRead(s)
  {
    var s' := s.(conn := s.conn.(output := false));
    var t := if !s.conn.stopped || s.conn.draining then OnWriteComplete(w, s') else s';
    if t.conn.stopped && !t.conn.output then RequestClose(t) else t
  }

  function Destroyed(w: World, s: State): State {
    var t := if s.ses.job.Some? then DropJob(s) else s;
    var u := RequestClose(FinishPending(w, t, true));
    u.(conn := u.conn.(destroyed := true))
  }

  function Deliver(w: World, s: State, i: Input): State
    requires CanRead(s)
  {
    if s.conn.destroyed then s
    else if i.Destroy? then Destroyed(w, s)
    else if !s.conn.open then s
    else
      match i
      case Bytes(data, eof) =>
        if s.conn.stopped then s
        else OnMessage(w, s.(conn := s.conn.(input := s.conn.input + data, eof := s.conn.eof || eof)))
      case Written => if s.conn.output then OnFlushed(w, s) else s
      case Continuation(generation) =>
        var spent := s.conn.wake.Some? && s.conn.wake.value.generation == generation;
        OnTaskContinuation(w, if spent then s.(conn := s.conn.(wake := None)) else s, generation)
      case Drain => BeginDrain(s)
      case Expire => RequestClose(Blamed(s, ReadExpired))
  }
}
