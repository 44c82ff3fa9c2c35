/**
 The session in the form of the source: an object whose methods update its fields, a
 connection object it drives, and sends that call back into the session before they return.
 Every method is proved equal to the function of `Session` that specifies it, so all theorems
 about runs hold of the object.
 */
module ConnectionHandler {
  import opened Basics
  import opened RequestParsing
  import opened Session
  import Spec = Session
  import opened SessionInvariant
  import opened SessionRuns

  class TcpConnection {
    var input: string
    var peerClosed: bool
    var draining: bool
    var open: bool
    var readPaused: bool
    var inputStopped: bool
    var outputPending: bool
    var readDeadline: Option<int>
    var continuation: Option<Wake>
    var destroyed: bool

    constructor ()
      ensures View() == START.conn
    {
      input, peerClosed, draining, open := "", false, false, true;
      readPaused, inputStopped, outputPending, destroyed := false, false, false, false;
      readDeadline, continuation := None, None;
    }

    function View(): Conn
      reads this
    {
      Conn(input, peerClosed, draining, open, readPaused, inputStopped, outputPending, readDeadline, continuation,
           destroyed)
    }

    method SetReadDeadline(deadline: Option<int>)
      modifies this
      ensures View() == SetDeadline(old(View()), deadline)
    {
      if !open || draining {
        return;
      }
      readDeadline := deadline;
    }
  }

  class HttpSession {
    const world: World
    const connection: TcpConnection
    const parser: RequestParser

    var phase: Phase
    var completed: bool
    var close: bool
    var requestPending: bool
    var requestStarted: int
    var readDeadline: Option<int>
    var pendingJob: Option<Job>
    var taskGeneration: nat
    var requestLease: bool
    var status: nat
    var content: nat
    var history: History

    ghost predicate Valid() {
      parser.grammar == world.grammar
    }

    function View(): State
      reads this, connection, parser
    {
      State(
        Session(phase, completed, close, requestPending, requestStarted, readDeadline, pendingJob, taskGeneration,
                requestLease, status, content, parser.core),
        connection.View(), history)
    }

    constructor (world: World)
      ensures Valid() && View() == START && this.world == world
      ensures fresh(connection) && fresh(parser)
    {
      this.world := world;
      connection := new TcpConnection();
      parser := new RequestParser(world.grammar);
      phase, completed, close, requestPending, requestStarted := Reading, false, false, false, 0;
      readDeadline, pendingJob, taskGeneration, requestLease, status, content := None, None, 0, false, 0, 0;
      history := START.hist;
    }

    method RequestClose()
      modifies this, connection
      ensures View() == Spec.RequestClose(old(View()))
    {
      if connection.open {
        history := Note(history, Closed);
      }
      connection.open := false;
      connection.readDeadline := None;
      connection.continuation := None;
    }

    method CloseAfterFlush()
      modifies this, connection
      ensures View() == Spec.CloseAfterFlush(old(View()))
    {
      connection.inputStopped := true;
      if !connection.outputPending {
        RequestClose();
      }
    }

    method ClearReadDeadline()
      modifies this, connection
      ensures View() == Spec.ClearReadDeadline(old(View()))
    {
      readDeadline := None;
      connection.SetReadDeadline(None);
    }

    method FinishPendingRequest(aborted: bool)
      modifies this
      ensures View() == FinishPending(world, old(View()), aborted)
    {
      if requestLease {
        requestLease := false;
        history := Note(history, Released);
      }
      if !requestPending {
        return;
      }
      requestPending := false;
      var elapsed := world.now(history.tick) - requestStarted;
      history := Note(Ask(history), Finished(aborted, status, content, Max(0, elapsed)));
    }

    method CloseResourceRejected()
      modifies this, connection
      ensures View() == Spec.CloseResourceRejected(world, old(View()))
    {
      hide FinishPending, Spec.RequestClose, Spec.ClearReadDeadline, WellFormed;
      phase := Closing;
      completed := false;
      status := 0;
      content := 0;
      ClearReadDeadline();
      FinishPendingRequest(true);
      RequestClose();
    }

    method CloseExpiredRequest() returns (expired: bool)
      modifies this, connection
      ensures expired == Expired(world, old(View()))
      ensures View() == if expired then CloseExpired(old(View())) else Checked(old(View()))
    {
      if readDeadline.None? {
        return false;
      }
      var now := world.now(history.tick);
      history := Ask(history);
      if now < readDeadline.value {
        return false;
      }
      history := Blame(history, ReadExpired);
      phase := Closing;
      ClearReadDeadline();
      RequestClose();
      return true;
    }

    /** The opening of a request at its first non-empty input; false when it was refused. */
    method BeginRequest() returns (admitted: bool)
      modifies this, connection
      ensures admitted == Admitted(world, old(View()))
      ensures View() == if admitted then Admission(world, old(View())) else Refusal(world, old(View()))
    {
      hide Spec.CloseResourceRejected, WellFormed;
      if requestPending || connection.input == "" {
        return true;
      }
      requestPending := true;
      requestStarted := world.now(history.tick);
      status := 0;
      content := 0;
      history := Note(Ask(history), Began(requestStarted));
      if world.budgeted {
        var accepted := world.acquire(history.tick);
        if !accepted {
          history := Blame(Note(Ask(history), Refused), BudgetRefused);
          CloseResourceRejected();
          return false;
        }
        history := Note(Ask(history), Acquired);
      }
      requestLease := world.budgeted;
      if world.readTimeout > 0 {
        readDeadline := Some(requestStarted + world.readTimeout);
        connection.SetReadDeadline(readDeadline);
      }
      return true;
    }

    method FeedParser()
      requires Valid()
      modifies this, connection, parser
      ensures View() == FeedInput(world, old(View()))
    {
      hide Feed, WellFormed;
      var accepted := parser.FeedRequestBytes(connection.input);
      history := history.(consumed := history.consumed + connection.input[..accepted]);
      connection.input := connection.input[accepted..];
    }

    method OnMessage()
      requires Valid() && CanRead(View())
      modifies this, connection, parser
      ensures View() == Spec.OnMessage(world, old(View()))
      decreases Size(View()) + 2, 6
    {
      hide WellFormed, Respond, Spec.SendFinal, Spec.SendInterim, CloseExpired, Refusal, FeedInput, Admission;
      ghost var s := View();
      if phase != Reading || connection.draining {
        return;
      }
      ReceiveProgress(world, s);
      AdmittedInput(world, s);
      FedProgress(world, Admission(world, Checked(s)));
      var expired := CloseExpiredRequest();
      if expired {
        return;
      }
      var admitted := BeginRequest();
      if !admitted {
        return;
      }
      FeedParser();
      RespondToInput(|s.conn.input|);
    }

    /** What the source does with a parse result, down to the transport and back. */
    method RespondToInput(ghost n: nat)
      requires Valid()
      requires parser.core.status in {Complete, HeadersComplete} ==> |connection.input| < n
      modifies this, connection, parser
      ensures Performed(world, Respond(world, old(View())), View())
      decreases 3 * n + 2, 5
    {
      hide WellFormed, Spec.OnRequestHeaders, Spec.Dispatch, Spec.SendFinal, Spec.SendInterim, CloseExpired;
      if parser.core.status == NeedMore && !connection.peerClosed {
        connection.readPaused := false;
        return;
      }
      if parser.core.status == NeedMore && completed && parser.core.requestBytes == 0 {
        phase := Closing;
        CloseAfterFlush();
        return;
      }
      var expired := CloseExpiredRequest();
      if expired {
        return;
      }
      if parser.core.status == HeadersComplete {
        OnRequestHeaders(n);
        return;
      }
      ClearReadDeadline();
      Dispatch(n);
    }

    method Dispatch(ghost n: nat)
      requires Valid() && parser.core.status != HeadersComplete
      requires parser.core.status == Complete ==> |connection.input| < n
      modifies this, connection, parser
      ensures Performed(world, Spec.Dispatch(world, old(View())), View())
      decreases 3 * n + 2, 4
    {
      hide WellFormed, Spec.DispatchComplete, Spec.SendFinal, Spec.SendInterim;
      close := parser.core.status != Complete || parser.core.fields.close;
      phase := Writing;
      connection.readPaused := true;
      if parser.core.status == Complete {
        DispatchComplete(n);
      } else {
        SendFinalResponse(
          if parser.core.status == NeedMore then Truncated else Malformed(parser.core.status), None,
          ErrorReply(world, parser.core, StatusCode(parser.core.status)));
      }
    }

    method DispatchComplete(ghost n: nat)
      requires Valid() && |connection.input| < n
      modifies this, connection, parser
      ensures Performed(world, Spec.DispatchComplete(world, old(View())), View())
      decreases 3 * n + 2, 3
    {
      hide WellFormed, Spec.SubmitJob, Spec.SendFinal, Spec.SendInterim;
      var request := RequestOf(parser.core);
      var submission := world.submit(history.tick, request);
      history := Ask(history);
      match submission {
        case Accepted(deadline) => SubmitJob(n, deadline);
        case Immediate(reply) => SendFinalResponse(Whole(request), None, reply);
        case SubmitThrows => SendFinalResponse(Whole(request), None, ErrorReply(world, parser.core, 500));
        case Synchronous =>
          var reply := ProvideReply(world, View().ses, history.tick);
          history := Ask(history);
          SendFinalResponse(Whole(request), None, reply);
      }
    }

    method SubmitJob(ghost n: nat, deadline: int)
      requires Valid() && |connection.input| < n
      modifies this, connection, parser
      ensures Performed(world, Spec.SubmitJob(world, old(View()), deadline), View())
      decreases 3 * n + 2, 2
    {
      hide WellFormed, Spec.SendFinal, Spec.SendInterim;
      var request := RequestOf(parser.core);
      var id := history.jobs;
      pendingJob := Some(Job(id, deadline, request));
      history := Note(history.(jobs := id + 1), Submitted(id, request));
      taskGeneration := taskGeneration + 1;
      phase := AwaitingTask;
      var armed := world.arm(history.tick);
      if armed {
        ArmTaskContinuation();
      } else {
        CancelPendingJob();
        history := Blame(Ask(history), ArmFailed);
        SendFinalResponse(Whole(request), Some(id), FAILURE_REPLY);
      }
    }

    method ArmTaskContinuation()
      requires pendingJob.Some?
      modifies this, connection
      ensures View() == ArmContinuation(world, old(View()))
    {
      var next := Min(world.now(history.tick) + TASK_POLL_NS, pendingJob.value.deadline);
      connection.continuation := Some(Wake(next, taskGeneration));
      history := Ask(history);
    }

    method CancelPendingJob()
      requires pendingJob.Some?
      modifies this, connection
      ensures View() == DropJob(old(View()))
    {
      history := Note(history, Cancelled(pendingJob.value.id));
      pendingJob := None;
      connection.continuation := None;
    }

    method OnRequestHeaders(ghost n: nat)
      requires Valid() && |connection.input| < n && parser.core.status == HeadersComplete
      modifies this, connection, parser
      ensures Performed(world, Spec.OnRequestHeaders(world, old(View())), View())
      decreases 3 * n + 2, 4
    {
      hide WellFormed, Spec.SendFinal, Spec.SendInterim, CloseExpired;
      var rejected := HeadReply(world, parser.core, history.tick);
      history := Ask(history);
      var expired := CloseExpiredRequest();
      if expired {
        return;
      }
      connection.readPaused := true;
      if rejected.None? {
        SendContinue();
        return;
      }
      ClearReadDeadline();
      SendFinalResponse(HeadOnly(HeadOf(parser.core)), None, rejected.value);
    }

    method SendContinue()
      requires Valid() && Unfinished(parser.core)
      modifies this, connection, parser
      ensures View() == Spec.SendInterim(world, old(View()))
      decreases Size(View()) + 4, 0
    {
      hide WellFormed, Spec.Transmit;
      ghost var s := View();
      phase := InterimWriting;
      var tick := history.tick;
      history := Ask(history);
      Transmit(Interim, tick);
    }

    method SendFinalResponse(answered: Answered, job: Option<nat>, reply: Reply)
      requires Valid()
      modifies this, connection, parser
      ensures View() == Spec.SendFinal(world, old(View()), answered, job, reply)
      decreases if reply.close then 1 else Size(View()) + 4, 0
    {
      hide WellFormed, Spec.Transmit;
      phase := Writing;
      close := reply.close;
      status := reply.status;
      content := reply.content;
      completed := true;
      var tick := history.tick;
      history := Ask(history);
      assert View() == Answering(old(View()), reply);
      Transmit(Final(answered, job, reply), tick);
    }

    /** `sendBytes` or `sendFile`: refused, queued, or written at once with the completion
        callback running before the send returns. */
    method Transmit(e: Event, tick: nat)
      requires Valid() && CanRead(View())
      modifies this, connection, parser
      ensures View() == Spec.Transmit(world, old(View()), e, tick)
      decreases if phase == Writing && close then 0 else Size(View()) + 3, 1
    {
      hide WellFormed, Spec.OnWriteComplete, Spec.CloseResourceRejected;
      var outcome := world.send(tick);
      match outcome {
        case Rejected =>
          history := Blame(history, SendRefused);
          RequestClose();
          CloseResourceRejected();
        case Later =>
          connection.outputPending := true;
          history := Note(history, e);
        case Now =>
          history := Note(history, e);
          OnWriteComplete();
      }
    }

    method OnWriteComplete()
      requires Valid() && CanRead(View())
      modifies this, connection, parser
      ensures View() == Spec.OnWriteComplete(world, old(View()))
      decreases if phase == Writing && close then 0 else Size(View()) + 3, 0
    {
      hide WellFormed, Spec.OnMessage, FinishHistory, CloseExpired, Spec.CloseAfterFlush;
      history := Note(history, Flushed);
      if phase == InterimWriting {
        if connection.draining {
          phase := Closing;
          ClearReadDeadline();
          FinishPendingRequest(true);
          CloseAfterFlush();
          return;
        }
        var expired := CloseExpiredRequest();
        if expired {
          return;
        }
        phase := Reading;
        OnMessage();
        return;
      }
      if phase != Writing {
        return;
      }
      FinishPendingRequest(false);
      if close || connection.draining {
        phase := Closing;
        CloseAfterFlush();
        return;
      }
      parser.ResetRequestParser();
      phase := Reading;
      OnMessage();
    }

    method OnTaskContinuation(generation: nat)
      requires Valid()
      modifies this, connection, parser
      ensures View() == Spec.OnTaskContinuation(world, old(View()), generation)
    {
      hide WellFormed, Spec.SendFinal, Spec.ArmContinuation;
      if phase != AwaitingTask || generation != taskGeneration || connection.draining || pendingJob.None? {
        return;
      }
      var job := pendingJob.value;
      var result := None;
      var failed := false;
      if world.now(history.tick) < job.deadline {
        match world.collect(history.tick, job) {
          case NotReady =>
          case Ready(reply) => result := Some(reply);
          case CollectThrows => failed := true;
        }
      }
      var mishap := if failed then Some(TaskThrew) else None;
      if !failed && job.deadline <= world.now(history.tick + 1) {
        result := Some(TIMEOUT_REPLY);
        mishap := Some(TaskOverdue);
      }
      if !failed && result.None? {
        if world.arm(history.tick + 2) {
          history := history.(tick := history.tick + 2);
          ArmTaskContinuation();
          return;
        }
        failed := true;
        mishap := Some(ArmFailed);
      }
      if failed {
        result := Some(FAILURE_REPLY);
      }
      history := history.(tick := history.tick + 2);
      CancelPendingJob();
      history := Ask(history);
      if mishap.Some? {
        history := Blame(history, mishap.value);
      }
      SendFinalResponse(Whole(job.request), Some(job.id), result.value);
    }

    method BeginConnectionDrain()
      modifies this, connection
      ensures View() == BeginDrain(old(View()))
    {
      if connection.draining {
        return;
      }
      connection.draining := true;
      connection.continuation := None;
      connection.readDeadline := None;
      connection.inputStopped := true;
      connection.readPaused := true;
      history := Blame(Note(history, Draining), Drained);
      if !connection.outputPending {
        RequestClose();
      }
    }

    /** The output buffer has drained. */
    method OnOutputFlushed()
      requires Valid() && CanRead(View())
      modifies this, connection, parser
      ensures View() == OnFlushed(world, old(View()))
    {
      hide WellFormed, Spec.OnWriteComplete;
      connection.outputPending := false;
      if !connection.inputStopped || connection.draining {
        OnWriteComplete();
      }
      if connection.inputStopped && !connection.outputPending {
        RequestClose();
      }
    }

    /** The destructor: whatever is still pending is cancelled and finished as aborted. */
    method Destroy()
      modifies this, connection
      ensures View() == Destroyed(world, old(View()))
    {
      hide WellFormed, FinishHistory;
      if pendingJob.Some? {
        CancelPendingJob();
      }
      FinishPendingRequest(true);
      RequestClose();
      connection.destroyed := true;
    }
  }

  /** One notification of the event loop. */
  method Notify(session: HttpSession, i: Input)
    requires session.Valid() && CanRead(session.View())
    modifies session, session.connection, session.parser
    ensures session.View() == Deliver(session.world, old(session.View()), i)
  {
    hide WellFormed, Destroyed, OnMessage, OnFlushed, OnTaskContinuation, BeginDrain, RequestClose;
    var c := session.connection;
    if c.destroyed {
      return;
    }
    if i.Destroy? {
      session.Destroy();
      return;
    }
    if !c.open {
      return;
    }
    match i {
      case Bytes(data, eof) =>
        if !c.inputStopped {
          c.input := c.input + data;
          c.peerClosed := c.peerClosed || eof;
          session.OnMessage();
        }
      case Written =>
        if c.outputPending {
          session.OnOutputFlushed();
        }
      case Continuation(generation) =>
        if c.continuation.Some? && c.continuation.value.generation == generation {
          c.continuation := None;
        }
        session.OnTaskContinuation(generation);
      case Drain =>
        session.BeginConnectionDrain();
      case Expire =>
        session.history := Blame(session.history, ReadExpired);
        session.RequestClose();
    }
  }

  /** A session driven through any notifications reaches exactly the state the theorems about
      runs speak of. */
  method Drive(world: World, inputs: seq<Input>) returns (session: HttpSession)
    ensures fresh(session) && session.Valid() && session.world == world
    ensures session.View() == Run(world, inputs)
  {
    hide Deliver, Good;
    session := new HttpSession(world);
    for k := 0 to |inputs|
      invariant fresh(session) && fresh(session.connection) && fresh(session.parser)
      invariant session.Valid() && session.world == world
      invariant session.View() == Run(world, inputs[..k])
    {
      Notify(session, inputs[k]);
      assert inputs[..k + 1][..k] == inputs[..k];
    }
    assert inputs[..|inputs|] == inputs;
  }

  /** The state after an action has been carried out to the end. */
  ghost predicate Performed(w: World, a: Action, after: State) {
    match a
    case Stop(t) => after == t
    case Answer(t, answered, job, reply) => after == SendFinal(w, t, answered, job, reply)
    case Announce(t) => Unfinished(t.ses.parser) && after == SendInterim(w, t)
  }

  lemma FedProgress(w: World, s: State)
    requires Unfinished(s.ses.parser)
    ensures var t := FeedInput(w, s);
            t.ses.parser.status in {Complete, HeadersComplete} ==> |t.conn.input| < |s.conn.input|
  {
    hide WellFormed, Feed;
  }

  lemma AdmittedInput(w: World, s: State)
    ensures var t := Admission(w, Checked(s));
            t.conn.input == s.conn.input && t.ses.parser == s.ses.parser
  {
    hide WellFormed;
  }
}
