/** Theorems about whole runs of a session: any notifications, in any order, in any world. */
module SessionRuns {
  import opened Basics
  import opened RequestParsing
  import opened Stream
  import opened Session
  import opened SessionProtocol
  import opened SessionInvariant

  lemma StartGood(w: World)
    ensures Good(w, START)
  {
  }

  /** The state after a list of notifications. */
  function Run(w: World, inputs: seq<Input>): (s: State)
    ensures Good(w, s) && CanRead(s)
    decreases |inputs|
  {
    if inputs == [] then
      StartGood(w);
      START
    else
      var before := Run(w, inputs[..|inputs| - 1]);
      DeliverInv(w, before, inputs[|inputs| - 1]);
      InvCanRead(w, Deliver(w, before, inputs[|inputs| - 1]));
      Deliver(w, before, inputs[|inputs| - 1])
  }

  // ----- no byte is lost, repeated or reordered on its way to the parser -----

  function Held(s: State): string {
    s.hist.consumed + s.conn.input
  }

  lemma RejectKeepsBytes(w: World, s: State)
    ensures Held(CloseResourceRejected(w, s)) == Held(s)
  {
    hide WellFormed;
  }

  predicate SameBytes(s: State, t: State) {
    t.hist.consumed == s.hist.consumed && t.conn.input == s.conn.input
  }

  function StateOf(a: Action): State {
    a.s
  }

  lemma DispatchKeepsBytes(w: World, s: State)
    ensures SameBytes(s, StateOf(Dispatch(w, s)))
  {
    hide WellFormed;
  }

  lemma HeadersKeepBytes(w: World, s: State)
    ensures SameBytes(s, StateOf(OnRequestHeaders(w, s)))
  {
    hide WellFormed;
  }

  lemma RespondKeepsBytes(w: World, s: State)
    ensures SameBytes(s, StateOf(Respond(w, s)))
  {
    hide WellFormed, Dispatch, OnRequestHeaders;
    DispatchKeepsBytes(w, ClearReadDeadline(Checked(s)));
    HeadersKeepBytes(w, Checked(s));
  }

  lemma ReceiveKeepsBytes(w: World, s: State)
    ensures Held(StateOf(Receive(w, s))) == Held(s)
  {
    hide WellFormed, Respond, Refusal, Feed, Admission, CloseExpired;
    var t := Admission(w, Checked(s));
    AdmissionKeepsBytes(w, Checked(s));
    AdmissionKeepsBytes(w, s);
    RespondKeepsBytes(w, FeedInput(w, t));
    var n := Feed(w.grammar, t.ses.parser, s.conn.input).accepted;
    assert s.hist.consumed + s.conn.input[..n] + s.conn.input[n..] == Held(s);
  }

  lemma AdmissionKeepsBytes(w: World, s: State)
    ensures SameBytes(s, Admission(w, s)) && SameBytes(s, Refusal(w, s)) && SameBytes(s, CloseExpired(s))
  {
    hide WellFormed;
  }

  lemma {:induction false} MessageKeepsBytes(w: World, s: State)
    requires CanRead(s)
    ensures Held(OnMessage(w, s)) == Held(s)
    decreases Size(s) + 2, 2
  {
    hide WellFormed, Receive, Transmit;
    ReceiveProgress(w, s);
    ReceiveKeepsBytes(w, s);
    match Receive(w, s) {
      case Stop(t) =>
      case Answer(t, answered, job, reply) =>
        TransmitKeepsBytes(w, Answering(t, reply), Final(answered, job, reply), t.hist.tick);
      case Announce(t) =>
        TransmitKeepsBytes(w, State(t.ses.(phase := InterimWriting), t.conn, Ask(t.hist)), Interim, t.hist.tick);
    }
  }

  lemma {:induction false} TransmitKeepsBytes(w: World, s: State, e: Event, tick: nat)
    requires CanRead(s)
    ensures Held(Transmit(w, s, e, tick)) == Held(s)
    decreases if s.ses.phase == Writing && s.ses.close then 0 else Size(s) + 3, 1
  {
    hide WellFormed, OnWriteComplete, CloseResourceRejected;
    RejectKeepsBytes(w, RequestClose(Blamed(s, SendRefused)));
    if w.send(tick).Now? {
      WriteKeepsBytes(w, State(s.ses, s.conn, Note(s.hist, e)));
    }
  }

  lemma {:induction false} WriteKeepsBytes(w: World, s: State)
    requires CanRead(s)
    ensures Held(OnWriteComplete(w, s)) == Held(s)
    decreases if s.ses.phase == Writing && s.ses.close then 0 else Size(s) + 3, 0
  {
    hide WellFormed, OnMessage;
    var f := s.(hist := Note(s.hist, Flushed));
    var t := FinishPending(w, f, false);
    if s.ses.phase == InterimWriting {
      if !s.conn.draining && !Expired(w, f) {
        MessageKeepsBytes(w, State(s.ses.(phase := Reading), s.conn, Checked(f).hist));
      }
    } else if s.ses.phase == Writing && !s.ses.close && !s.conn.draining {
      MessageKeepsBytes(w, State(t.ses.(parser := Fresh(), phase := Reading), s.conn, t.hist));
    }
  }

  /** The bytes the connection took in during a run. */
  function Accepted(w: World, inputs: seq<Input>): string
    decreases |inputs|
  {
    if inputs == [] then ""
    else
      var before, i := inputs[..|inputs| - 1], inputs[|inputs| - 1];
      var s := Run(w, before);
      Accepted(w, before) +
      (if i.Bytes? && s.conn.open && !s.conn.destroyed && !s.conn.stopped then i.data else "")
  }

  lemma ControlKeepsBytes(w: World, s: State)
    ensures Held(Destroyed(w, s)) == Held(BeginDrain(s)) == Held(RequestClose(s)) == Held(s)
  {
    hide WellFormed;
  }

  lemma FlushKeepsBytes(w: World, s: State)
    requires CanRead(s)
    ensures Held(OnFlushed(w, s)) == Held(s)
  {
    hide WellFormed, OnWriteComplete;
    WriteKeepsBytes(w, s.(conn := s.conn.(output := false)));
  }

  lemma DeliverKeepsBytes(w: World, s: State, i: Input)
    requires CanRead(s)
    ensures Held(Deliver(w, s, i)) ==
            Held(s) + (if i.Bytes? && s.conn.open && !s.conn.destroyed && !s.conn.stopped then i.data else "")
  {
    hide WellFormed, OnMessage, OnFlushed, OnTaskContinuation, Destroyed, BeginDrain, RequestClose;
    ControlKeepsBytes(w, s);
    ControlKeepsBytes(w, Blamed(s, ReadExpired));
    assert Held(s) + "" == Held(s);
    if !s.conn.destroyed && s.conn.open {
      match i {
        case Bytes(data, eof) =>
          var b := s.(conn := s.conn.(input := s.conn.input + data, eof := s.conn.eof || eof));
          assert Held(b) == Held(s) + data;
          if !s.conn.stopped {
            MessageKeepsBytes(w, b);
          }
        case Written => FlushKeepsBytes(w, s);
        case Continuation(generation) =>
          PollKeepsBytes(w, s, generation);
          PollKeepsBytes(w, s.(conn := s.conn.(wake := None)), generation);
        case _ =>
      }
    }
  }

  lemma PollKeepsBytes(w: World, s: State, generation: nat)
    ensures Held(OnTaskContinuation(w, s, generation)) == Held(s)
  {
    hide WellFormed, Transmit;
    if s.ses.phase == AwaitingTask && s.ses.job.Some? {
      var job := s.ses.job.value;
      var v := Polled(w, s);
      var reply := PollReply(w, job, s.hist.tick);
      if reply.Some? {
        TransmitKeepsBytes(w, Answering(v, reply.value), Final(Whole(job.request), Some(job.id), reply.value),
                           v.hist.tick);
      }
    }
  }

  lemma {:induction false} BytesConserved(w: World, inputs: seq<Input>)
    ensures Held(Run(w, inputs)) == Accepted(w, inputs)
  {
    if inputs != [] {
      BytesConserved(w, inputs[..|inputs| - 1]);
      DeliverKeepsBytes(w, Run(w, inputs[..|inputs| - 1]), inputs[|inputs| - 1]);
    }
  }

  // ----- order -----

  /** For every byte stream, every cut into reads and every choice of immediate or later
      completion of sends: the k-th final response answers the k-th request of the stream.
      Only the last may answer something that is not a whole request, and then nothing follows. */
  lemma ResponsesInOrder(w: World, inputs: seq<Input>, k: nat)
    requires k < |Answers(Run(w, inputs).hist.log)|
    ensures var answers := Answers(Run(w, inputs).hist.log);
            var requests := ScanAll(w.grammar, Accepted(w, inputs)).done;
            || (k < |requests| && answers[k] == Whole(requests[k]))
            || (k == |answers| - 1 && !answers[k].Whole?)
  {
    hide WellFormed, Observe, ScanAll, Run, InvWith, InOrder, Quiet, WakeOk;
    var s := Run(w, inputs);
    AnswersObserved(s.hist.log);
    BytesConserved(w, inputs);
    ScanPrefix(w.grammar, s.hist.consumed, Held(s));
    OrderOf(w, s);
    KthInOrder(Observe(s.hist.log).value.answers, ScanAll(w.grammar, s.hist.consumed).done, k);
  }

  lemma KthInOrder(answers: seq<Answered>, done: seq<Request>, k: nat)
    requires InOrder(answers, done) && k < |answers|
    ensures (k < |done| && answers[k] == Whole(done[k])) || (k == |answers| - 1 && !answers[k].Whole?)
  {
    if |answers| == |done| + 1 && k < |done| {
      assert answers[..|done|][k] == answers[k];
    }
  }

  lemma OrderOf(w: World, s: State)
    requires Inv(w, s)
    ensures InOrder(Observe(s.hist.log).value.answers, ScanAll(w.grammar, s.hist.consumed).done)
  {
    hide ScanAll, Norm, InOrder, Observe, AnswersWhole, WellFormed;
  }

  // ----- accounting -----

  /** In every reachable state the requests begun are those completed, aborted and pending, a
      lease is held exactly while a request is pending, and every accepted job but the one
      waited for has been cancelled exactly once; a job is waited for exactly in AwaitingTask. */
  lemma Accounting(w: World, inputs: seq<Input>)
    ensures var s := Run(w, inputs);
            && Observe(s.hist.log).Some?
            && var m := Observe(s.hist.log).value;
            && m.begun == m.completed + m.aborted + (if s.ses.pending then 1 else 0)
            && (s.ses.lease <==> w.budgeted && s.ses.pending)
            && (!s.conn.destroyed ==> (s.ses.job.Some? <==> s.ses.phase == AwaitingTask))
            && forall id: nat :: id < s.hist.jobs ==>
                 CountCancels(s.hist.log, id) == if s.ses.job.Some? && s.ses.job.value.id == id then 0 else 1
  {
    hide ScanAll, Norm, InOrder, Observe, AnswersWhole, WellFormed, CountCancels;
    var s := Run(w, inputs);
    LawfulHistory(s.hist.log);
    forall id: nat | id < s.hist.jobs
      ensures CountCancels(s.hist.log, id) == if s.ses.job.Some? && s.ses.job.value.id == id then 0 else 1
    {
      CancelledOnce(s.hist.log, id);
    }
  }

  /** After destruction everything is balanced: no request pending, no lease held, every
      accepted job cancelled exactly once. */
  lemma BalancedAfterDestroy(w: World, inputs: seq<Input>)
    requires Run(w, inputs).conn.destroyed
    ensures var s := Run(w, inputs);
            && Observe(s.hist.log).Some?
            && var m := Observe(s.hist.log).value;
            && m.begun == m.completed + m.aborted && !s.ses.lease && m.closed
            && forall id: nat :: id < s.hist.jobs ==> CountCancels(s.hist.log, id) == 1
  {
    hide ScanAll, Norm, InOrder, Observe, AnswersWhole, WellFormed, CountCancels;
    Accounting(w, inputs);
  }

  // ----- closing -----

  predicate IsSend(e: Event) {
    e.Final? || e.Interim?
  }

  /** What `Deliver` does to a closed connection: at most the bookkeeping of destruction. */
  predicate NoSends(before: seq<Event>, after: seq<Event>) {
    before <= after && forall i :: |before| <= i < |after| ==> !IsSend(after[i])
  }

  lemma FinishNoSends(w: World, s: State, aborted: bool)
    ensures NoSends(s.hist.log, FinishPending(w, s, aborted).hist.log)
  {
  }

  lemma ClosedDeliver(w: World, s: State, i: Input)
    requires CanRead(s) && !s.conn.open
    ensures var t := Deliver(w, s, i);
            !t.conn.open && t.ses.phase == s.ses.phase && NoSends(s.hist.log, t.hist.log)
  {
    hide WellFormed, OnMessage, OnFlushed, OnTaskContinuation, BeginDrain, FinishHistory;
    var t := if s.ses.job.Some? then DropJob(s) else s;
    FinishNoSends(w, t, true);
  }

  /** `Closing` is absorbing, and once the connection is closed or closing no final response
      and no 100 is ever sent again. */
  lemma {:induction false} ClosingIsForever(w: World, inputs: seq<Input>, more: seq<Input>)
    requires Run(w, inputs).ses.phase == Closing || !Run(w, inputs).conn.open
    ensures var s, t := Run(w, inputs), Run(w, inputs + more);
            !t.conn.open && t.ses.phase == s.ses.phase && NoSends(s.hist.log, t.hist.log)
    decreases |more|
  {
    hide Deliver, Inv, WellFormed;
    if Run(w, inputs).ses.phase == Closing {
      ClosingClosed(w, Run(w, inputs));
    }
    if more == [] {
      assert inputs + more == inputs;
    } else {
      var less := more[..|more| - 1];
      ClosingIsForever(w, inputs, less);
      assert (inputs + more)[..|inputs + more| - 1] == inputs + less;
      ClosedDeliver(w, Run(w, inputs + less), more[|more| - 1]);
    }
  }

  lemma ClosingClosed(w: World, s: State)
    requires Inv(w, s) && s.ses.phase == Closing
    ensures !s.conn.open
  {
    hide ScanAll, Norm, InOrder, Observe, AnswersWhole, WellFormed;
  }

  // ----- history only grows -----

  predicate Grows(s: State, t: State) {
    s.hist.log <= t.hist.log && s.hist.mishaps <= t.hist.mishaps && s.hist.tick <= t.hist.tick
  }

  lemma FinishGrows(w: World, s: State, aborted: bool)
    ensures Grows(s, FinishPending(w, s, aborted))
  {
  }

  lemma RejectGrows(w: World, s: State)
    ensures Grows(s, CloseResourceRejected(w, s))
  {
    hide WellFormed, FinishHistory;
    var t := ClearReadDeadline(s.(ses := s.ses.(phase := Closing, completed := false, status := 0, content := 0)));
    FinishGrows(w, t, true);
  }

  lemma DispatchGrows(w: World, s: State)
    ensures Grows(s, StateOf(Dispatch(w, s)))
  {
    hide WellFormed;
  }

  lemma HeadersGrow(w: World, s: State)
    ensures Grows(s, StateOf(OnRequestHeaders(w, s)))
  {
    hide WellFormed;
  }

  lemma RespondGrows(w: World, s: State)
    ensures Grows(s, StateOf(Respond(w, s)))
  {
    hide WellFormed, Dispatch, OnRequestHeaders;
    DispatchGrows(w, ClearReadDeadline(Checked(s)));
    HeadersGrow(w, Checked(s));
  }

  lemma ReceiveGrows(w: World, s: State)
    ensures Grows(s, StateOf(Receive(w, s)))
  {
    hide WellFormed, Respond, CloseResourceRejected, Feed;
    RespondGrows(w, FeedInput(w, Admission(w, Checked(s))));
    var o := Opened(w, Checked(s));
    RejectGrows(w, State(o.ses, o.conn, Blame(Note(Ask(o.hist), Refused), BudgetRefused)));
  }

  lemma {:induction false} MessageGrows(w: World, s: State)
    requires CanRead(s)
    ensures Grows(s, OnMessage(w, s))
    decreases Size(s) + 2, 2
  {
    hide WellFormed, Receive, Transmit;
    ReceiveProgress(w, s);
    ReceiveGrows(w, s);
    match Receive(w, s) {
      case Stop(t) =>
      case Answer(t, answered, job, reply) =>
        TransmitGrows(w, Answering(t, reply), Final(answered, job, reply), t.hist.tick);
      case Announce(t) =>
        TransmitGrows(w, State(t.ses.(phase := InterimWriting), t.conn, Ask(t.hist)), Interim, t.hist.tick);
    }
  }

  lemma {:induction false} TransmitGrows(w: World, s: State, e: Event, tick: nat)
    requires CanRead(s)
    ensures Grows(s, Transmit(w, s, e, tick))
    decreases if s.ses.phase == Writing && s.ses.close then 0 else Size(s) + 3, 1
  {
    hide WellFormed, OnWriteComplete, CloseResourceRejected;
    RejectGrows(w, RequestClose(Blamed(s, SendRefused)));
    if w.send(tick).Now? {
      WriteGrows(w, State(s.ses, s.conn, Note(s.hist, e)));
    }
  }

  lemma {:induction false} WriteGrows(w: World, s: State)
    requires CanRead(s)
    ensures Grows(s, OnWriteComplete(w, s))
    decreases if s.ses.phase == Writing && s.ses.close then 0 else Size(s) + 3, 0
  {
    hide WellFormed, OnMessage, FinishHistory;
    var f := s.(hist := Note(s.hist, Flushed));
    FinishGrows(w, f, false);
    FinishGrows(w, ClearReadDeadline(f.(ses := s.ses.(phase := Closing))), true);
    var t := FinishPending(w, f, false);
    if s.ses.phase == InterimWriting {
      if !s.conn.draining && !Expired(w, f) {
        MessageGrows(w, State(s.ses.(phase := Reading), s.conn, Checked(f).hist));
      }
    } else if s.ses.phase == Writing && !s.ses.close && !s.conn.draining {
      MessageGrows(w, State(t.ses.(parser := Fresh(), phase := Reading), s.conn, t.hist));
    }
  }

  lemma PollGrows(w: World, s: State, generation: nat)
    ensures Grows(s, OnTaskContinuation(w, s, generation))
  {
    hide WellFormed, Transmit;
    if s.ses.phase == AwaitingTask && s.ses.job.Some? {
      var job := s.ses.job.value;
      var v := Polled(w, s);
      var reply := PollReply(w, job, s.hist.tick);
      if reply.Some? {
        TransmitGrows(w, Answering(v, reply.value), Final(Whole(job.request), Some(job.id), reply.value),
                      v.hist.tick);
      }
    }
  }

  lemma DeliverGrows(w: World, s: State, i: Input)
    requires CanRead(s)
    ensures Grows(s, Deliver(w, s, i))
  {
    hide WellFormed, OnMessage, OnWriteComplete, OnTaskContinuation, FinishHistory;
    FinishGrows(w, if s.ses.job.Some? then DropJob(s) else s, true);
    if !s.conn.destroyed && s.conn.open {
      match i {
        case Bytes(data, eof) =>
          MessageGrows(w, s.(conn := s.conn.(input := s.conn.input + data, eof := s.conn.eof || eof)));
        case Written =>
          WriteGrows(w, s.(conn := s.conn.(output := false)));
        case Continuation(generation) =>
          PollGrows(w, s, generation);
          PollGrows(w, s.(conn := s.conn.(wake := None)), generation);
        case _ =>
      }
    }
  }

  lemma {:induction false} RunGrows(w: World, inputs: seq<Input>, more: seq<Input>)
    ensures Grows(Run(w, inputs), Run(w, inputs + more))
    decreases |more|
  {
    hide Deliver, Good;
    if more == [] {
      assert inputs + more == inputs;
    } else {
      var less := more[..|more| - 1];
      RunGrows(w, inputs, less);
      assert (inputs + more)[..|inputs + more| - 1] == inputs + less;
      DeliverGrows(w, Run(w, inputs + less), more[|more| - 1]);
    }
  }

  // ----- the request read deadline -----

  /** Whenever the read deadline is set it is the time its request began plus the timeout, the
      request is pending, the session is reading or sending 100, and the connection's timer
      agrees; and a pending request that is being read has its deadline set. */
  lemma DeadlineIsStartPlusTimeout(w: World, inputs: seq<Input>)
    requires !Run(w, inputs).conn.destroyed
    ensures var s := Run(w, inputs);
            && (s.ses.readDeadline.Some? <==>
                  s.ses.pending && s.ses.phase in {Reading, InterimWriting} && w.readTimeout > 0)
            && (s.ses.readDeadline.Some? ==>
                  && LastBegan(s.hist.log).Some?
                  && s.ses.readDeadline.value == LastBegan(s.hist.log).value + w.readTimeout)
            && (s.conn.open && !s.conn.draining ==> s.conn.deadline == s.ses.readDeadline)
  {
    hide ScanAll, Norm, InOrder, Observe, AnswersWhole, WellFormed;
    var s := Run(w, inputs);
    LastObserved(s.hist.log);
    LawfulHistory(s.hist.log);
  }

  lemma {:induction false} LastBeganKept(a: seq<Event>, b: seq<Event>)
    requires a <= b && forall i :: |a| <= i < |b| ==> !b[i].Began?
    ensures LastBegan(b) == LastBegan(a)
    decreases |b|
  {
    if |a| == |b| {
      assert a == b;
    } else {
      LastBeganKept(a, b[..|b| - 1]);
    }
  }

  /** No later bytes and no 100-continue exchange moves the deadline of a request. */
  lemma DeadlineNeverMoves(w: World, inputs: seq<Input>, more: seq<Input>)
    requires var s, t := Run(w, inputs), Run(w, inputs + more);
             && !t.conn.destroyed && !s.conn.destroyed
             && s.ses.readDeadline.Some? && t.ses.readDeadline.Some?
             && forall i :: |s.hist.log| <= i < |t.hist.log| ==> !t.hist.log[i].Began?
    ensures Run(w, inputs).ses.readDeadline == Run(w, inputs + more).ses.readDeadline
  {
    hide Good, Run;
    RunGrows(w, inputs, more);
    DeadlineIsStartPlusTimeout(w, inputs);
    DeadlineIsStartPlusTimeout(w, inputs + more);
    LastBeganKept(Run(w, inputs).hist.log, Run(w, inputs + more).hist.log);
  }

  // ----- nothing is forgotten -----

  /** A session that waits for input has parsed every byte it received and is not paused; one
      that waits for a task has a continuation scheduled no later than the task's deadline. */
  lemma NothingForgotten(w: World, inputs: seq<Input>)
    requires Run(w, inputs).conn.open && !Run(w, inputs).conn.draining
    ensures var s := Run(w, inputs);
            && (s.ses.phase == Reading ==> s.hist.consumed == Accepted(w, inputs) && !s.conn.paused)
            && (s.ses.phase == AwaitingTask ==>
                  && s.ses.job.Some? && s.conn.wake.Some?
                  && s.conn.wake.value.generation == s.ses.generation
                  && s.conn.wake.value.at <= s.ses.job.value.deadline)
  {
    hide Inv, Run;
    BytesConserved(w, inputs);
  }

  // ----- tasks -----

  /** A continuation of an older generation, or one that arrives when no task is awaited, changes
      neither the session nor its history, and leaves one that awaits a task exactly as it was. */
  lemma StaleContinuation(w: World, inputs: seq<Input>, generation: nat)
    requires generation != Run(w, inputs).ses.generation || Run(w, inputs).ses.phase != AwaitingTask
    ensures var s, t := Run(w, inputs), Run(w, inputs + [Continuation(generation)]);
            t.ses == s.ses && t.hist == s.hist && (Awaiting(s) ==> t == s)
  {
    hide WellFormed, Inv;
    assert (inputs + [Continuation(generation)])[..|inputs|] == inputs;
  }

  ghost predicate MonotoneClock(w: World) {
    forall i: nat, j: nat :: i <= j ==> w.now(i) <= w.now(j)
  }

  predicate Awaiting(s: State) {
    s.ses.phase == AwaitingTask && s.conn.open && !s.conn.draining && !s.conn.destroyed &&
    s.ses.job.Some? && s.conn.wake.Some? && s.conn.wake.value.generation == s.ses.generation
  }

  // ----- generations -----

  /** A task awaited in `t` but not in `s` belongs to a newer generation. */
  predicate Newer(s: State, t: State) {
    s.ses.generation <= t.ses.generation &&
    (t.ses.phase == AwaitingTask ==> s.ses.phase == AwaitingTask || s.ses.generation < t.ses.generation)
  }

  lemma DispatchNewer(w: World, s: State)
    ensures Newer(s, StateOf(Dispatch(w, s))) && Newer(s, StateOf(OnRequestHeaders(w, s)))
    ensures s.ses.generation <= StateOf(Dispatch(w, s)).ses.generation
  {
    hide WellFormed;
  }

  lemma ReceiveNewer(w: World, s: State)
    ensures Newer(s, StateOf(Receive(w, s)))
  {
    hide WellFormed, Respond, Admission, Refusal, CloseExpired, Feed;
    var a := Admission(w, Checked(s));
    AdmissionNewer(w, Checked(s));
    AdmissionNewer(w, s);
    RespondNewer(w, FeedInput(w, a));
  }

  lemma AdmissionNewer(w: World, s: State)
    ensures Admission(w, s).ses.generation == s.ses.generation && Admission(w, s).ses.phase == s.ses.phase
    ensures Refusal(w, s).ses.generation == s.ses.generation && Refusal(w, s).ses.phase == Closing
    ensures CloseExpired(s).ses.generation == s.ses.generation && CloseExpired(s).ses.phase == Closing
  {
    hide WellFormed;
  }

  lemma RespondNewer(w: World, s: State)
    ensures Newer(s, StateOf(Respond(w, s)))
  {
    hide WellFormed, Dispatch, OnRequestHeaders;
    DispatchNewer(w, ClearReadDeadline(Checked(s)));
    DispatchNewer(w, Checked(s));
  }

  lemma {:induction false} MessageNewer(w: World, s: State)
    requires CanRead(s)
    ensures Newer(s, OnMessage(w, s))
    decreases Size(s) + 2, 2
  {
    hide WellFormed, Receive, Transmit;
    ReceiveProgress(w, s);
    ReceiveNewer(w, s);
    match Receive(w, s) {
      case Stop(t) =>
      case Answer(t, answered, job, reply) =>
        TransmitNewer(w, Answering(t, reply), Final(answered, job, reply), t.hist.tick);
      case Announce(t) =>
        TransmitNewer(w, State(t.ses.(phase := InterimWriting), t.conn, Ask(t.hist)), Interim, t.hist.tick);
    }
  }

  lemma {:induction false} TransmitNewer(w: World, s: State, e: Event, tick: nat)
    requires CanRead(s)
    ensures Newer(s, Transmit(w, s, e, tick))
    decreases if s.ses.phase == Writing && s.ses.close then 0 else Size(s) + 3, 1
  {
    hide WellFormed, OnWriteComplete;
    if w.send(tick).Now? {
      WriteNewer(w, State(s.ses, s.conn, Note(s.hist, e)));
    }
  }

  lemma {:induction false} WriteNewer(w: World, s: State)
    requires CanRead(s)
    ensures Newer(s, OnWriteComplete(w, s))
    decreases if s.ses.phase == Writing && s.ses.close then 0 else Size(s) + 3, 0
  {
    hide WellFormed, OnMessage, FinishHistory;
    var f := s.(hist := Note(s.hist, Flushed));
    if s.ses.phase == InterimWriting {
      if !s.conn.draining && !Expired(w, f) {
        MessageNewer(w, State(s.ses.(phase := Reading), s.conn, Checked(f).hist));
      }
    } else if s.ses.phase == Writing && !s.ses.close && !s.conn.draining {
      var t := FinishPending(w, f, false);
      MessageNewer(w, State(t.ses.(parser := Fresh(), phase := Reading), s.conn, t.hist));
    }
  }

  // ----- waiting for a task -----

  /** The poll of the awaited task. */
  predicate IsPoll(s: State, i: Input) {
    i == Continuation(s.ses.generation)
  }

  /** A poll that found nothing, the collector's clock not having reached the deadline. */
  predicate FoundNothing(w: World, s: State)
    requires s.ses.job.Some?
  {
    PollReply(w, s.ses.job.value, s.hist.tick).None? && w.now(s.hist.tick + 1) < s.ses.job.value.deadline
  }

  /** While one task is awaited nothing but a poll touches its wake-up, and nothing touches the session;
      a poll that leaves it awaited found nothing and sets the next wake-up. */
  lemma WaitingStep(w: World, s: State, i: Input)
    requires Good(w, s) && CanRead(s) && Awaiting(s)
    requires Awaiting(Deliver(w, s, i)) && Deliver(w, s, i).ses.generation == s.ses.generation
    ensures var t := Deliver(w, s, i);
            && t.ses == s.ses
            && (!IsPoll(s, i) ==> t.conn.wake == s.conn.wake && t.hist == s.hist)
            && (IsPoll(s, i) ==>
                  && FoundNothing(w, s)
                  && t.conn.wake.value.at == Min(w.now(s.hist.tick + 2) + TASK_POLL_NS, s.ses.job.value.deadline))
  {
    hide WellFormed, Inv, OnFlushed, Transmit;
    if i.Written? && s.conn.output {
      OutputPhase(w, s);
    }
    if IsPoll(s, i) {
      var u := s.(conn := s.conn.(wake := None));
      var reply := PollReply(w, s.ses.job.value, s.hist.tick);
      if reply.Some? {
        var v := Polled(w, u);
        TransmitNewer(w, Answering(v, reply.value),
                      Final(Whole(s.ses.job.value.request), Some(s.ses.job.value.id), reply.value), v.hist.tick);
      }
    }
  }

  function Polls(inputs: seq<Input>, generation: nat): nat {
    if inputs == [] then 0
    else Polls(inputs[..|inputs| - 1], generation) + if inputs[|inputs| - 1] == Continuation(generation) then 1 else 0
  }

  /** One task is awaited all along `more`. */
  ghost predicate KeepsWaiting(w: World, inputs: seq<Input>, more: seq<Input>) {
    forall k :: 0 <= k <= |more| ==> WaitsOn(Run(w, inputs), Run(w, inputs + more[..k]))
  }

  predicate WaitsOn(s: State, t: State) {
    Awaiting(t) && t.ses.generation == s.ses.generation
  }

  /** Its timer never fires early. */
  ghost predicate Punctual(w: World, inputs: seq<Input>, more: seq<Input>) {
    forall k :: 0 <= k < |more| ==> OnTime(w, Run(w, inputs + more[..k]), more[k])
  }

  predicate OnTime(w: World, s: State, i: Input) {
    IsPoll(s, i) && s.conn.wake.Some? ==> s.conn.wake.value.at <= w.now(s.hist.tick)
  }

  lemma WaitingPrefix(w: World, inputs: seq<Input>, more: seq<Input>)
    requires KeepsWaiting(w, inputs, more) && more != []
    ensures KeepsWaiting(w, inputs, more[..|more| - 1])
    ensures Punctual(w, inputs, more) ==> Punctual(w, inputs, more[..|more| - 1])
  {
    hide Run, WaitsOn, OnTime;
    var less := more[..|more| - 1];
    assert forall k :: 0 <= k <= |less| ==> less[..k] == more[..k];
  }

  lemma WaitingAt(w: World, inputs: seq<Input>, more: seq<Input>, k: nat)
    requires KeepsWaiting(w, inputs, more) && k <= |more|
    ensures WaitsOn(Run(w, inputs), Run(w, inputs + more[..k]))
    ensures Punctual(w, inputs, more) && k < |more| ==> OnTime(w, Run(w, inputs + more[..k]), more[k])
  {
    hide Run, WaitsOn, OnTime;
  }

  /** `n` polls after `s`, the session in `t` still awaits the same task. */
  predicate WaitedTo(s: State, t: State, n: nat) {
    && Awaiting(s) && Awaiting(t) && t.ses == s.ses && t.hist.log == s.hist.log
    && t.conn.wake.value.at >= Min(s.conn.wake.value.at + n * TASK_POLL_NS, s.ses.job.value.deadline)
    && (n > 0 ==> (n - 1) * TASK_POLL_NS < s.ses.job.value.deadline - s.conn.wake.value.at)
  }

  lemma WaitingAdds(w: World, s: State, u: State, i: Input, n: nat)
    requires MonotoneClock(w) && Good(w, u) && CanRead(u) && WaitedTo(s, u, n)
    requires Awaiting(Deliver(w, u, i)) && Deliver(w, u, i).ses.generation == u.ses.generation
    requires OnTime(w, u, i)
    ensures WaitedTo(s, Deliver(w, u, i), if IsPoll(u, i) then n + 1 else n)
  {
    hide Deliver, Good, CanRead;
    WaitingStep(w, u, i);
    WaitingLog(w, u, i);
    assert w.now(u.hist.tick) <= w.now(u.hist.tick + 1) && w.now(u.hist.tick) <= w.now(u.hist.tick + 2);
  }

  /** What a waiting session still is after any notifications, and where its wake-up has got to. */
  lemma {:induction false} WaitingRun(w: World, inputs: seq<Input>, more: seq<Input>)
    requires MonotoneClock(w) && KeepsWaiting(w, inputs, more) && Punctual(w, inputs, more)
    ensures WaitedTo(Run(w, inputs), Run(w, inputs + more), Polls(more, Run(w, inputs).ses.generation))
    decreases |more|
  {
    hide Deliver, Good, CanRead, KeepsWaiting, Punctual, Awaiting, MonotoneClock, WaitedTo;
    WaitingAt(w, inputs, more, |more|);
    assert more[..|more|] == more;
    if more == [] {
      assert inputs + more == inputs;
      WaitedNone(Run(w, inputs));
    } else {
      var less, i := more[..|more| - 1], more[|more| - 1];
      WaitingAt(w, inputs, more, |less|);
      WaitingPrefix(w, inputs, more);
      WaitingRun(w, inputs, less);
      assert (inputs + more)[..|inputs + more| - 1] == inputs + less;
      WaitingAdds(w, Run(w, inputs), Run(w, inputs + less), i, Polls(less, Run(w, inputs).ses.generation));
    }
  }

  lemma WaitedNone(s: State)
    requires Awaiting(s)
    ensures WaitedTo(s, s, 0)
  {
  }

  lemma WaitingLog(w: World, s: State, i: Input)
    requires Good(w, s) && CanRead(s) && Awaiting(s)
    requires Awaiting(Deliver(w, s, i)) && Deliver(w, s, i).ses.generation == s.ses.generation
    ensures Deliver(w, s, i).hist.log == s.hist.log
  {
    WaitingStep(w, s, i);
    hide WellFormed, Inv, OnFlushed, Transmit;
  }

  /** With a monotone clock and timers that never fire early a task is awaited through a bounded number of
      polls, whatever else arrives between them: each poll brings the deadline 5 ms closer. */
  lemma PollsAreBounded(w: World, inputs: seq<Input>, more: seq<Input>)
    requires MonotoneClock(w) && KeepsWaiting(w, inputs, more) && Punctual(w, inputs, more)
    ensures var s := Run(w, inputs);
            var n := Polls(more, s.ses.generation);
            Awaiting(s) && (n > 0 ==> (n - 1) * TASK_POLL_NS < s.ses.job.value.deadline - s.conn.wake.value.at)
  {
    hide Run;
    WaitingRun(w, inputs, more);
  }

  lemma {:induction false} WaitingSame(w: World, inputs: seq<Input>, more: seq<Input>)
    requires KeepsWaiting(w, inputs, more)
    ensures var s, t := Run(w, inputs), Run(w, inputs + more);
            t.ses == s.ses && t.hist.log == s.hist.log
    decreases |more|
  {
    hide Deliver, Good, CanRead, KeepsWaiting, Punctual, Awaiting;
    WaitingAt(w, inputs, more, |more|);
    assert more[..|more|] == more;
    if more == [] {
      assert inputs + more == inputs;
    } else {
      var less, i := more[..|more| - 1], more[|more| - 1];
      WaitingAt(w, inputs, more, |less|);
      WaitingPrefix(w, inputs, more);
      WaitingSame(w, inputs, less);
      assert (inputs + more)[..|inputs + more| - 1] == inputs + less;
      WaitingStep(w, Run(w, inputs + less), i);
      WaitingLog(w, Run(w, inputs + less), i);
    }
  }

  /** Whatever arrives while a task is awaited, input included, is only buffered: the session and what it
      has sent are the same until the task ends, and no byte is lost. */
  lemma BytesDuringTask(w: World, inputs: seq<Input>, more: seq<Input>)
    requires KeepsWaiting(w, inputs, more)
    ensures var s, t := Run(w, inputs), Run(w, inputs + more);
            t.ses == s.ses && t.hist.log == s.hist.log && t.hist.consumed + t.conn.input == Accepted(w, inputs + more)
  {
    hide Run, KeepsWaiting, Accepted;
    WaitingSame(w, inputs, more);
    BytesConserved(w, inputs + more);
  }

  /** A result collected too late is never delivered: when the clock read after collection has reached the
      deadline the job is cancelled, and the response that follows is the timeout, or the failure of a
      collector that threw. */
  lemma LateResultDropped(w: World, inputs: seq<Input>)
    requires Awaiting(Run(w, inputs))
    requires Run(w, inputs).ses.job.value.deadline <= w.now(Run(w, inputs).hist.tick + 1)
    ensures var s, t := Run(w, inputs), Run(w, inputs + [Continuation(Run(w, inputs).ses.generation)]);
            var job, n := s.ses.job.value, |s.hist.log|;
            && n < |t.hist.log| && t.hist.log[n] == Cancelled(job.id)
            && (n + 1 < |t.hist.log| && t.hist.log[n + 1].Final? ==>
                  t.hist.log[n + 1] in {Final(Whole(job.request), Some(job.id), TIMEOUT_REPLY),
                                        Final(Whole(job.request), Some(job.id), FAILURE_REPLY)})
  {
    hide WellFormed, Good, CanRead, OnTaskContinuation;
    var s := Run(w, inputs);
    var i := Continuation(s.ses.generation);
    assert (inputs + [i])[..|inputs|] == inputs;
    LatePoll(w, s.(conn := s.conn.(wake := None)));
  }

  lemma LatePoll(w: World, s: State)
    requires s.ses.phase == AwaitingTask && !s.conn.draining && s.ses.job.Some?
    requires s.ses.job.value.deadline <= w.now(s.hist.tick + 1)
    ensures var t := OnTaskContinuation(w, s, s.ses.generation);
            var job, n := s.ses.job.value, |s.hist.log|;
            && n < |t.hist.log| && t.hist.log[n] == Cancelled(job.id)
            && (n + 1 < |t.hist.log| && t.hist.log[n + 1].Final? ==>
                  t.hist.log[n + 1] in {Final(Whole(job.request), Some(job.id), TIMEOUT_REPLY),
                                        Final(Whole(job.request), Some(job.id), FAILURE_REPLY)})
  {
    hide WellFormed, Transmit, PollMishap;
    var job, v := s.ses.job.value, Polled(w, s);
    var reply := PollReply(w, job, s.hist.tick).value;
    SentNext(w, Answering(v, reply), Final(Whole(job.request), Some(job.id), reply), v.hist.tick);
  }

  /** The event after a send is the send, unless it was refused and then no response follows. */
  lemma SentNext(w: World, s: State, e: Event, tick: nat)
    requires CanRead(s)
    ensures var log := Transmit(w, s, e, tick).hist.log;
            && s.hist.log <= log
            && (|s.hist.log| < |log| && log[|s.hist.log|].Final? ==> log[|s.hist.log|] == e)
  {
    hide WellFormed, OnWriteComplete;
    TransmitGrows(w, s, e, tick);
    if w.send(tick).Now? {
      WriteGrows(w, State(s.ses, s.conn, Note(s.hist, e)));
    }
  }
}
