/**
 What holds of a session between any two notifications, whatever the environment does, and
 that every notification keeps it.  The proof follows the reentrant recursion of the source.
 */
module SessionInvariant {
  import opened Basics
  import opened RequestParsing
  import opened Stream
  import opened Session
  import opened SessionProtocol

  function JobPair(job: Option<Job>): Option<(nat, Request)> {
    match job
    case None => None
    case Some(j) => Some((j.id, j.request))
  }

  /** The session's fields and its history tell the same story. */
  predicate Coupled(s: State, m: Monitor) {
    && m.pending == s.ses.pending && m.lease == s.ses.lease
    && m.closed == !s.conn.open && m.draining == s.conn.draining
    && m.jobs == s.hist.jobs && m.openJob == JobPair(s.ses.job)
    && (s.ses.pending ==> m.beganAt == s.ses.started)
    && (m.answered ==> m.answers != [])
    && (s.conn.output ==> m.inflight)
  }

  predicate PhaseOk(s: State, m: Monitor) {
    && (s.ses.job.Some? <==> s.ses.phase == AwaitingTask)
    && match s.ses.phase
       case Reading =>
         && !m.inflight
         && (s.ses.pending ==> !m.answered && m.doneJob.None? && (InHeader(s.ses.parser) ==> !m.announced))
         && (!s.ses.pending ==>
               s.ses.parser.requestBytes == 0 && (m.answered <==> m.begun > 0) && (m.begun == 0 ==> m.doneJob.None?))
         && (s.ses.pending ==> s.ses.parser.requestBytes > 0 || s.conn.input != "")
         && (s.ses.completed <==> m.answers != [])
       case InterimWriting =>
         && s.ses.pending && m.inflight && !m.answered && m.announced && m.doneJob.None?
         && !InHeader(s.ses.parser) && s.ses.parser.requestBytes > 0
         && (s.ses.completed <==> m.answers != [])
       case AwaitingTask =>
         && s.ses.pending && !m.inflight && !m.answered && m.doneJob.None?
       case Writing =>
         && m.inflight && m.answered && s.ses.completed && (s.ses.pending || s.ses.close)
       case Closing => !s.conn.open
  }

  predicate DeadlineOk(w: World, s: State) {
    && (s.ses.readDeadline.Some? <==>
          s.ses.pending && s.ses.phase in {Reading, InterimWriting} && w.readTimeout > 0)
    && (s.ses.readDeadline.Some? ==> s.ses.readDeadline.value == s.ses.started + w.readTimeout)
    && (s.conn.open && !s.conn.draining ==> s.conn.deadline == s.ses.readDeadline)
  }

  predicate LeaseOk(w: World, s: State) {
    s.ses.lease <==> w.budgeted && s.ses.pending
  }

  /** A waiting task always has a continuation scheduled, no later than its deadline. */
  predicate WakeOk(s: State) {
    s.ses.phase == AwaitingTask && s.conn.open && !s.conn.draining ==>
      && s.ses.job.Some? && s.conn.wake.Some? && s.conn.wake.value.generation == s.ses.generation
      && s.conn.wake.value.at <= s.ses.job.value.deadline
  }

  /** The first n answers are whole answers to the first n requests, in order. */
  predicate AnswersWhole(answers: seq<Answered>, done: seq<Request>, n: int) {
    0 <= n == |answers| <= |done| && forall i :: 0 <= i < n ==> answers[i] == Whole(done[i])
  }

  /** As above, but the last answer may be one to an incomplete request. */
  predicate InOrder(answers: seq<Answered>, done: seq<Request>) {
    || (|answers| <= |done| && AnswersWhole(answers, done, |answers|))
    || (|answers| == |done| + 1 && !answers[|done|].Whole? && AnswersWhole(answers[..|done|], done, |done|))
  }

  lemma WholeInOrder(answers: seq<Answered>, done: seq<Request>, n: int)
    requires AnswersWhole(answers, done, n)
    ensures InOrder(answers, done)
  {
  }

  predicate OrderOk(s: State, m: Monitor, sc: Scan) {
    && Norm(sc.parser) == Norm(s.ses.parser)
    && InOrder(m.answers, sc.done)
    && match s.ses.phase
       case Reading => AnswersWhole(m.answers, sc.done, |sc.done|)
       case InterimWriting => AnswersWhole(m.answers, sc.done, |sc.done|)
       case AwaitingTask =>
         && AnswersWhole(m.answers, sc.done, |sc.done| - 1)
         && s.ses.job.Some? && s.ses.job.value.request == sc.done[|sc.done| - 1]
         && s.ses.parser.status == Complete
       case Writing => s.ses.close || (AnswersWhole(m.answers, sc.done, |sc.done|) && s.ses.parser.status == Complete)
       case Closing => true
  }

  predicate Alive(w: World, s: State, m: Monitor) {
    && !s.conn.destroyed && PhaseOk(s, m) && DeadlineOk(w, s)
    && (s.conn.stopped ==> !s.conn.open || s.conn.draining)
  }

  predicate Gone(s: State) {
    s.conn.destroyed && !s.conn.open && !s.ses.pending && s.ses.job.None?
  }

  predicate InvWith(w: World, s: State, m: Monitor) {
    && Coupled(s, m) && LeaseOk(w, s) && CanRead(s)
    && (if s.conn.destroyed then Gone(s) && InOrder(m.answers, ScanAll(w.grammar, s.hist.consumed).done)
        else Alive(w, s, m) && OrderOk(s, m, ScanAll(w.grammar, s.hist.consumed)))
  }

  predicate Inv(w: World, s: State) {
    Observe(s.hist.log).Some? && InvWith(w, s, Observe(s.hist.log).value)
  }

  /** Between notifications a reading session has no unread input, is not paused and has not
      seen the end of its input. */
  predicate Quiet(s: State) {
    s.conn.open && !s.conn.draining && s.ses.phase == Reading ==>
      s.conn.input == "" && !s.conn.paused && !s.conn.eof
  }

  // ----- closing -----

  /** Enough to close a session, in any phase. */
  predicate Closable(w: World, s: State, m: Monitor) {
    && !s.conn.destroyed && Coupled(s, m) && s.ses.job.None?
    && Norm(ScanAll(w.grammar, s.hist.consumed).parser) == Norm(s.ses.parser)
    && InOrder(m.answers, ScanAll(w.grammar, s.hist.consumed).done)
  }

  function Finish(m: Monitor, aborted: bool): Monitor {
    if !m.pending then m.(lease := false)
    else m.(lease := false, pending := false, aborted := m.aborted + (if aborted then 1 else 0),
            completed := m.completed + (if aborted then 0 else 1))
  }

  lemma ObserveFinish(w: World, s: State, m: Monitor, aborted: bool)
    requires Observe(s.hist.log) == Some(m)
    requires m.pending == s.ses.pending && m.lease == s.ses.lease
    requires aborted || (m.answered && !m.inflight) || !m.pending
    ensures Observe(FinishHistory(w, s, aborted).log) == Some(Finish(m, aborted))
    ensures var h := FinishHistory(w, s, aborted); h.jobs == s.hist.jobs && h.consumed == s.hist.consumed
  {
    hide Observe;
    ObserveNote(s.hist.log, Released);
    var h := if s.ses.lease then Note(s.hist, Released) else s.hist;
    var e := Finished(aborted, s.ses.status, s.ses.content, Max(0, w.now(h.tick) - s.ses.started));
    ObserveNote(h.log, e);
  }

  lemma ObserveClosed(log: seq<Event>, m: Monitor)
    requires Observe(log) == Some(m) && !m.closed
    ensures Observe(log + [Closed]) == Some(m.(closed := true))
  {
    hide Observe;
    ObserveNote(log, Closed);
  }

  lemma ObserveCancelled(log: seq<Event>, m: Monitor, id: nat)
    requires Observe(log) == Some(m) && m.openJob.Some? && m.openJob.value.0 == id
    ensures Observe(log + [Cancelled(id)]) == Some(m.(doneJob := m.openJob, openJob := None))
  {
    hide Observe;
    ObserveNote(log, Cancelled(id));
  }

  lemma RequestCloseInv(w: World, s: State)
    requires Inv(w, s)
    ensures Inv(w, RequestClose(s))
  {
    hide ScanAll;
    hide Norm;
    hide InOrder;
    hide AnswersWhole;
    hide Observe;
    hide WellFormed;
    ObserveNote(s.hist.log, Closed);
  }

  lemma CloseExpiredInv(w: World, s: State, m: Monitor)
    requires Observe(s.hist.log) == Some(m) && Closable(w, s, m) && LeaseOk(w, s)
    ensures Inv(w, CloseExpired(s)) && !CloseExpired(s).conn.open
  {
    hide ScanAll;
    hide Norm;
    hide InOrder;
    hide AnswersWhole;
    hide Observe;
    hide WellFormed;
    ObserveNote(s.hist.log, Closed);
  }

  lemma CloseRejectedInv(w: World, s: State, m: Monitor)
    requires Observe(s.hist.log) == Some(m) && Closable(w, s, m)
    ensures Inv(w, CloseResourceRejected(w, s)) && !CloseResourceRejected(w, s).conn.open
  {
    hide ScanAll;
    hide Norm;
    hide InOrder;
    hide AnswersWhole;
    hide Observe;
    hide WellFormed;
    hide FinishHistory;
    var t := ClearReadDeadline(s.(ses := s.ses.(phase := Closing, completed := false, status := 0, content := 0)));
    ObserveFinish(w, t, m, true);
    if s.conn.open {
      ObserveClosed(FinishHistory(w, t, true).log, Finish(m, true));
    }
  }

  lemma CloseAfterFlushInv(w: World, s: State, m: Monitor)
    requires Observe(s.hist.log) == Some(m) && Closable(w, s, m)
    requires LeaseOk(w, s) && s.ses.phase == Closing && s.ses.readDeadline.None? && !s.conn.output
    ensures Inv(w, CloseAfterFlush(s)) && !CloseAfterFlush(s).conn.open
  {
    hide ScanAll;
    hide Norm;
    hide InOrder;
    hide AnswersWhole;
    hide Observe;
    hide WellFormed;
    ObserveNote(s.hist.log, Closed);
  }

  lemma InvInOrder(w: World, s: State)
    requires Inv(w, s)
    ensures InOrder(Observe(s.hist.log).value.answers, ScanAll(w.grammar, s.hist.consumed).done)
  {
    hide ScanAll, Norm, InOrder, AnswersWhole, Observe, WellFormed, Alive;
  }

  /** Without a job, tearing down ends in a sound destroyed state. */
  lemma TornDownInv(w: World, s: State, m: Monitor)
    requires Observe(s.hist.log) == Some(m) && Coupled(s, m) && s.ses.job.None? && LeaseOk(w, s) && CanRead(s)
    requires InOrder(m.answers, ScanAll(w.grammar, s.hist.consumed).done)
    ensures var t := RequestClose(FinishPending(w, s, true));
            Inv(w, t.(conn := t.conn.(destroyed := true)))
  {
    hide ScanAll, InOrder, Observe, WellFormed, FinishHistory, Alive, OrderOk;
    ObserveFinish(w, s, m, true);
    if s.conn.open {
      ObserveClosed(FinishHistory(w, s, true).log, Finish(m, true));
    }
  }

  lemma DestroyedInv(w: World, s: State)
    requires Inv(w, s) && !s.conn.destroyed
    ensures Inv(w, Destroyed(w, s)) && Destroyed(w, s).conn.destroyed
  {
    InvInOrder(w, s);
    hide ScanAll, InOrder, Observe, WellFormed, FinishPending, Alive, OrderOk;
    var m := Observe(s.hist.log).value;
    if s.ses.job.Some? {
      ObserveCancelled(s.hist.log, m, s.ses.job.value.id);
      TornDownInv(w, DropJob(s), m.(doneJob := m.openJob, openJob := None));
    } else {
      TornDownInv(w, s, m);
    }
  }

  lemma BeginDrainInv(w: World, s: State)
    requires Inv(w, s) && s.conn.open && !s.conn.destroyed
    ensures Inv(w, BeginDrain(s))
  {
    hide ScanAll;
    hide Norm;
    hide InOrder;
    hide AnswersWhole;
    hide Observe;
    hide WellFormed;
    if !s.conn.draining {
      ObserveNote(s.hist.log, Draining);
      ObserveNote(s.hist.log + [Draining], Closed);
    }
  }

  // ----- receiving, up to the first send -----

  lemma AdmissionInv(w: World, s: State)
    requires Inv(w, s) && s.ses.phase == Reading && s.conn.open && !s.conn.draining && !s.conn.destroyed
    ensures Inv(w, Admission(w, s))
  {
    hide ScanAll, Norm, InOrder, AnswersWhole, Observe, WellFormed;
    if Opens(s) {
      var e := Began(w.now(s.hist.tick));
      ObserveNote(s.hist.log, e);
      ObserveNote(s.hist.log + [e], Acquired);
    }
  }

  lemma RefusalInv(w: World, s: State)
    requires Inv(w, s) && s.ses.phase == Reading && s.conn.open && !s.conn.draining && !s.conn.destroyed
    requires Opens(s)
    ensures Inv(w, Refusal(w, s)) && !Refusal(w, s).conn.open
  {
    hide ScanAll, Norm, InOrder, AnswersWhole, Observe, WellFormed, CloseResourceRejected;
    var t := Opened(w, s);
    var e := Began(w.now(s.hist.tick));
    ObserveNote(s.hist.log, e);
    ObserveNote(s.hist.log + [e], Refused);
    var u := State(t.ses, t.conn, Blame(Note(Ask(t.hist), Refused), BudgetRefused));
    CloseRejectedInv(w, u, Observe(u.hist.log).value);
  }

  /** A reading session just after its parser was fed. */
  predicate Parsed(w: World, s: State, m: Monitor) {
    ParsedState(w, s, m) && ParsedOrder(s.ses.parser, m.answers, ScanAll(w.grammar, s.hist.consumed))
  }

  predicate ParsedState(w: World, s: State, m: Monitor) {
    var p := s.ses.parser;
    && !s.conn.destroyed && s.conn.open && !s.conn.draining && s.ses.phase == Reading
    && Coupled(s, m) && LeaseOk(w, s) && PhaseOk(s, m) && DeadlineOk(w, s) && !s.conn.stopped
    && (p.status == NeedMore ==> s.conn.input == "")
    && (p.status != NeedMore ==> s.ses.pending)
    && (s.ses.pending ==> p.requestBytes > 0)
    && (p.status == HeadersComplete ==> !m.announced && !InHeader(p))
  }

  predicate ParsedOrder(p: Parser, answers: seq<Answered>, sc: Scan) {
    && Norm(sc.parser) == Norm(p)
    && (if p.status == Complete then AnswersWhole(answers, sc.done, |sc.done| - 1) &&
                                  sc.done[|sc.done| - 1] == RequestOf(p)
        else AnswersWhole(answers, sc.done, |sc.done|))
  }

  lemma FollowsInOrder(answers: seq<Answered>, sc: Scan, fed: Fed, sc': Scan)
    requires AnswersWhole(answers, sc.done, |sc.done|) && Follows(sc, fed, sc')
    ensures ParsedOrder(fed.parser, answers, sc')
  {
    hide Norm, WellFormed;
  }

  lemma FeedState(w: World, s: State, m: Monitor)
    requires InvWith(w, s, m) && s.ses.phase == Reading && s.conn.open && !s.conn.draining && !s.conn.destroyed
    requires s.conn.input != "" ==> s.ses.pending
    ensures ParsedState(w, FeedInput(w, s), m)
  {
    hide ScanAll, Norm, InOrder, AnswersWhole, WellFormed, Feed;
  }

  lemma FeedParsed(w: World, s: State)
    requires Inv(w, s) && s.ses.phase == Reading && s.conn.open && !s.conn.draining && !s.conn.destroyed
    requires s.conn.input != "" ==> s.ses.pending
    ensures Observe(FeedInput(w, s).hist.log) == Observe(s.hist.log)
    ensures Parsed(w, FeedInput(w, s), Observe(s.hist.log).value)
  {
    hide ScanAll, Norm, InOrder, AnswersWhole, Observe, WellFormed, Feed, ParsedState, ParsedOrder, Follows;
    var m := Observe(s.hist.log).value;
    FeedState(w, s, m);
    ScanFeed(w.grammar, s.hist.consumed, s.ses.parser, s.conn.input);
    FollowsInOrder(m.answers, ScanAll(w.grammar, s.hist.consumed), Feed(w.grammar, s.ses.parser, s.conn.input),
                   ScanAll(w.grammar, FeedInput(w, s).hist.consumed));
  }

  /** Ready to send a final response: everything but the send has happened. */
  predicate ReadyFinal(w: World, s: State, m: Monitor, answered: Answered, job: Option<nat>, reply: Reply) {
    var sc := ScanAll(w.grammar, s.hist.consumed);
    && !s.conn.destroyed && s.conn.open && !s.conn.draining && !s.conn.output && !s.conn.stopped
    && Coupled(s, m) && LeaseOk(w, s) && s.ses.job.None?
    && s.ses.readDeadline.None? && s.conn.deadline.None?
    && FinalLegal(m, answered, job)
    && (s.ses.pending || reply.close)
    && Norm(sc.parser) == Norm(s.ses.parser)
    && (if answered.Whole? then
          && AnswersWhole(m.answers, sc.done, |sc.done| - 1)
          && answered.request == sc.done[|sc.done| - 1]
          && s.ses.parser.status == Complete
        else reply.close && AnswersWhole(m.answers, sc.done, |sc.done|))
  }

  predicate ReadyInterim(w: World, s: State, m: Monitor) {
    && InvWith(w, s, m) && s.ses.phase == Reading && !s.conn.destroyed
    && s.conn.open && !s.conn.draining && !s.conn.output
    && s.ses.pending && !m.announced && !InHeader(s.ses.parser) && s.ses.parser.requestBytes > 0
  }

  predicate ActionOk(w: World, a: Action) {
    match a
    case Stop(t) => Inv(w, t) && Quiet(t) && WakeOk(t)
    case Answer(t, answered, job, reply) =>
      Observe(t.hist.log).Some? && ReadyFinal(w, t, Observe(t.hist.log).value, answered, job, reply)
    case Announce(t) => Observe(t.hist.log).Some? && ReadyInterim(w, t, Observe(t.hist.log).value)
  }

  lemma SubmitOk(w: World, s: State, m: Monitor, deadline: int)
    requires Observe(s.hist.log) == Some(m)
    requires ReadyFinal(w, s, m, Whole(RequestOf(s.ses.parser)), None, FAILURE_REPLY)
    requires s.ses.parser.status == Complete && s.ses.pending && m.doneJob.None?
    ensures ActionOk(w, SubmitJob(w, s, deadline))
  {
    hide ScanAll, Norm, InOrder, Observe, AnswersWhole, WellFormed;
    var e := Submitted(s.hist.jobs, RequestOf(s.ses.parser));
    ObserveNote(s.hist.log, e);
    ObserveNote(s.hist.log + [e], Cancelled(s.hist.jobs));
    var done := ScanAll(w.grammar, s.hist.consumed).done;
    WholeInOrder(m.answers, done, |done| - 1);
  }

  lemma DispatchOk(w: World, s: State, m: Monitor)
    requires Observe(s.hist.log) == Some(m) && Parsed(w, s, m)
    requires s.ses.parser.status != HeadersComplete
    requires s.ses.parser.status == NeedMore ==> !(s.ses.completed && s.ses.parser.requestBytes == 0)
    ensures ActionOk(w, Dispatch(w, ClearReadDeadline(Checked(s))))
  {
    hide ScanAll, Norm, InOrder, Observe, AnswersWhole, WellFormed, SubmitJob;
    if s.ses.parser.status == Complete {
      var t := ClearReadDeadline(Checked(s));
      var u := t.(ses := t.ses.(close := t.ses.parser.fields.close, phase := Writing), conn := t.conn.(paused := true));
      var submission := w.submit(u.hist.tick, RequestOf(u.ses.parser));
      if submission.Accepted? {
        SubmitOk(w, u.(hist := Ask(u.hist)), m, submission.deadline);
      }
    }
  }

  lemma HeadersOk(w: World, s: State, m: Monitor)
    requires Observe(s.hist.log) == Some(m) && Parsed(w, s, m)
    requires s.ses.parser.status == HeadersComplete
    ensures ActionOk(w, OnRequestHeaders(w, Checked(s)))
  {
    hide ScanAll, Norm, InOrder, Observe, AnswersWhole, WellFormed, CloseExpired;
    var done := ScanAll(w.grammar, s.hist.consumed).done;
    WholeInOrder(m.answers, done, |done|);
    var t := Checked(s).(hist := Ask(Checked(s).hist));
    CloseExpiredInv(w, t, m);
  }

  lemma RespondOk(w: World, s: State, m: Monitor)
    requires Observe(s.hist.log) == Some(m) && Parsed(w, s, m)
    ensures ActionOk(w, Respond(w, s))
  {
    hide ScanAll, Norm, InOrder, Observe, AnswersWhole, WellFormed, CloseExpired, CloseAfterFlush;
    hide OnRequestHeaders, Dispatch;
    var done := ScanAll(w.grammar, s.hist.consumed).done;
    var p := s.ses.parser;
    WholeInOrder(m.answers, done, if p.status == Complete then |done| - 1 else |done|);
    if p.status == NeedMore && !s.conn.eof {
    } else if p.status == NeedMore && s.ses.completed && p.requestBytes == 0 {
      CloseAfterFlushInv(w, s.(ses := s.ses.(phase := Closing)), m);
    } else if Expired(w, s) {
      CloseExpiredInv(w, s, m);
    } else if p.status == HeadersComplete {
      HeadersOk(w, s, m);
    } else {
      DispatchOk(w, s, m);
    }
  }

  lemma ReceiveOk(w: World, s: State)
    requires Inv(w, s) && s.conn.open && !s.conn.destroyed
    requires s.ses.phase == AwaitingTask ==> WakeOk(s)
    ensures ActionOk(w, Receive(w, s))
  {
    hide ScanAll, Norm, InOrder, Observe, AnswersWhole, WellFormed, CloseExpired, Respond, Refusal, FeedInput;
    if s.ses.phase == Reading && !s.conn.draining {
      var t := Checked(s);
      if Expired(w, s) {
        CloseExpiredInv(w, s, Observe(s.hist.log).value);
      } else if !Admitted(w, t) {
        RefusalInv(w, t);
      } else {
        AdmissionInv(w, t);
        FeedParsed(w, Admission(w, t));
        RespondOk(w, FeedInput(w, Admission(w, t)), Observe(Admission(w, t).hist.log).value);
      }
    }
  }

  // ----- sending -----

  /** A response or interim response about to be handed to the transport. */
  predicate Sendable(w: World, s: State, e: Event) {
    && s.conn.open && !s.conn.destroyed && !s.conn.output && s.ses.phase in {Writing, InterimWriting}
    && Inv(w, State(s.ses, s.conn, Note(s.hist, e)))
    && Observe(RequestClose(s).hist.log).Some?
    && Closable(w, RequestClose(s), Observe(RequestClose(s).hist.log).value)
  }

  lemma AnswerAppended(answers: seq<Answered>, done: seq<Request>, answered: Answered)
    ensures answered.Whole? && AnswersWhole(answers, done, |done| - 1) && answered.request == done[|done| - 1] ==>
              AnswersWhole(answers + [answered], done, |done|) && InOrder(answers + [answered], done)
    ensures !answered.Whole? && AnswersWhole(answers, done, |done|) ==> InOrder(answers + [answered], done)
  {
    assert (answers + [answered])[..|answers|] == answers;
  }

  lemma FinalSendable(w: World, s: State, m: Monitor, answered: Answered, job: Option<nat>, reply: Reply)
    requires Observe(s.hist.log) == Some(m) && ReadyFinal(w, s, m, answered, job, reply)
    ensures Sendable(w, Answering(s, reply), Final(answered, job, reply))
  {
    hide ScanAll, Norm, InOrder, Observe, AnswersWhole, WellFormed;
    ObserveNote(s.hist.log, Final(answered, job, reply));
    ObserveNote(s.hist.log, Closed);
    var done := ScanAll(w.grammar, s.hist.consumed).done;
    AnswerAppended(m.answers, done, answered);
    WholeInOrder(m.answers, done, if answered.Whole? then |done| - 1 else |done|);
  }

  lemma InterimSendable(w: World, s: State, m: Monitor)
    requires Observe(s.hist.log) == Some(m) && ReadyInterim(w, s, m)
    ensures Sendable(w, State(s.ses.(phase := InterimWriting), s.conn, Ask(s.hist)), Interim)
  {
    hide ScanAll, Norm, InOrder, Observe, AnswersWhole, WellFormed;
    ObserveNote(s.hist.log, Interim);
    ObserveNote(s.hist.log, Closed);
  }

  lemma NormComplete(p: Parser)
    requires p.status == Complete
    ensures Norm(p) == Norm(Fresh())
  {
  }

  /** A written final response on a connection that stays open: the next request may be read. */
  lemma NextRequestInv(w: World, s: State)
    requires Inv(w, s) && s.conn.open && !s.conn.destroyed && !s.conn.output
    requires s.ses.phase == Writing && !s.ses.close
    ensures var t := FinishPending(w, s.(hist := Note(s.hist, Flushed)), false);
            Inv(w, State(t.ses.(parser := Fresh(), phase := Reading), s.conn, t.hist))
  {
    hide ScanAll, Norm, InOrder, Observe, AnswersWhole, FinishHistory, WellFormed;
    var m := Observe(s.hist.log).value;
    ObserveNote(s.hist.log, Flushed);
    ObserveFinish(w, s.(hist := Note(s.hist, Flushed)), Next(m, Flushed), false);
    LawfulHistory(s.hist.log);
    NormComplete(s.ses.parser);
  }

  lemma LastResponseInv(w: World, s: State)
    requires Inv(w, s) && s.conn.open && !s.conn.destroyed && !s.conn.output
    requires s.ses.phase == Writing
    ensures var t := FinishPending(w, s.(hist := Note(s.hist, Flushed)), false);
            Inv(w, CloseAfterFlush(t.(ses := t.ses.(phase := Closing)))) &&
            !CloseAfterFlush(t.(ses := t.ses.(phase := Closing))).conn.open
  {
    hide ScanAll, Norm, InOrder, Observe, AnswersWhole, FinishHistory, WellFormed, CloseAfterFlush;
    var m := Observe(s.hist.log).value;
    ObserveNote(s.hist.log, Flushed);
    var f := s.(hist := Note(s.hist, Flushed));
    ObserveFinish(w, f, Next(m, Flushed), false);
    var t := FinishPending(w, f, false);
    CloseAfterFlushInv(w, t.(ses := t.ses.(phase := Closing)), Finish(Next(m, Flushed), false));
  }

  lemma InterimWrittenInv(w: World, s: State)
    requires Inv(w, s) && s.conn.open && !s.conn.destroyed && !s.conn.output
    requires s.ses.phase == InterimWriting
    ensures var f := s.(hist := Note(s.hist, Flushed));
            && Inv(w, CloseExpired(f)) && !CloseExpired(f).conn.open
            && Inv(w, State(s.ses.(phase := Reading), s.conn, Checked(f).hist))
  {
    hide ScanAll, Norm, InOrder, Observe, AnswersWhole, WellFormed, CloseExpired;
    var m := Observe(s.hist.log).value;
    ObserveNote(s.hist.log, Flushed);
    CloseExpiredInv(w, s.(hist := Note(s.hist, Flushed)), Next(m, Flushed));
  }

  lemma InterimDrainedInv(w: World, s: State)
    requires Inv(w, s) && s.conn.open && !s.conn.destroyed && !s.conn.output
    requires s.ses.phase == InterimWriting
    ensures var f := s.(hist := Note(s.hist, Flushed));
            var t := CloseAfterFlush(FinishPending(w, ClearReadDeadline(f.(ses := s.ses.(phase := Closing))), true));
            Inv(w, t) && !t.conn.open
  {
    hide ScanAll, Norm, InOrder, Observe, AnswersWhole, WellFormed, CloseAfterFlush, FinishHistory;
    var m := Observe(s.hist.log).value;
    ObserveNote(s.hist.log, Flushed);
    var f := s.(hist := Note(s.hist, Flushed));
    var t := ClearReadDeadline(f.(ses := s.ses.(phase := Closing)));
    ObserveFinish(w, t, Next(m, Flushed), true);
    CloseAfterFlushInv(w, FinishPending(w, t, true), Finish(Next(m, Flushed), true));
  }

  // ----- the recursion -----

  predicate Good(w: World, s: State) {
    Inv(w, s) && Quiet(s) && WakeOk(s)
  }

  lemma {:induction false} OnMessageInv(w: World, s: State)
    requires Inv(w, s) && s.conn.open && !s.conn.destroyed && (s.ses.phase == AwaitingTask ==> WakeOk(s))
    ensures Good(w, OnMessage(w, s))
    decreases Size(s) + 2, 2
  {
    hide Inv, Receive, Transmit, ReadyFinal, ReadyInterim, InvWith, WellFormed;
    assert CanRead(s) by { InvCanRead(w, s); }
    ReceiveProgress(w, s);
    ReceiveOk(w, s);
    match Receive(w, s) {
      case Stop(t) =>
      case Answer(t, answered, job, reply) =>
        SendFinalInv(w, t, answered, job, reply);
      case Announce(t) =>
        InterimSendable(w, t, Observe(t.hist.log).value);
        TransmitInv(w, State(t.ses.(phase := InterimWriting), t.conn, Ask(t.hist)), Interim, t.hist.tick);
    }
  }

  lemma InvCanRead(w: World, s: State)
    requires Inv(w, s)
    ensures CanRead(s)
  {
  }

  lemma {:induction false} SendFinalInv(w: World, s: State, answered: Answered, job: Option<nat>, reply: Reply)
    requires Observe(s.hist.log).Some?
    requires ReadyFinal(w, s, Observe(s.hist.log).value, answered, job, reply)
    ensures Good(w, SendFinal(w, s, answered, job, reply))
    decreases if reply.close then 1 else Size(s) + 4, 1
  {
    hide Inv, Transmit, ReadyFinal, WellFormed, Closable;
    FinalSendable(w, s, Observe(s.hist.log).value, answered, job, reply);
    TransmitInv(w, Answering(s, reply), Final(answered, job, reply), s.hist.tick);
  }

  lemma {:induction false} TransmitInv(w: World, s: State, e: Event, tick: nat)
    requires Sendable(w, s, e)
    ensures CanRead(s) && Good(w, Transmit(w, s, e, tick))
    decreases if s.ses.phase == Writing && s.ses.close then 0 else Size(s) + 3, 1
  {
    hide Inv, OnWriteComplete, WellFormed, Closable, CloseResourceRejected;
    var sent := State(s.ses, s.conn, Note(s.hist, e));
    InvCanRead(w, sent);
    OutputInv(w, sent);
    if w.send(tick).Rejected? {
      var r := RequestClose(Blamed(s, SendRefused));
      BlamedClosable(w, s, SendRefused, Observe(r.hist.log).value);
      CloseRejectedInv(w, r, Observe(r.hist.log).value);
    } else if w.send(tick).Now? {
      OnWriteCompleteInv(w, sent);
    }
  }

  lemma BlamedClosable(w: World, s: State, mishap: Mishap, m: Monitor)
    requires Closable(w, RequestClose(s), m)
    ensures Closable(w, RequestClose(Blamed(s, mishap)), m)
  {
    hide ScanAll, Norm, InOrder, WellFormed;
  }

  lemma BlamedInv(w: World, s: State, mishap: Mishap)
    requires Inv(w, s)
    ensures Inv(w, Blamed(s, mishap))
  {
    hide ScanAll, Norm, InOrder, Observe, AnswersWhole, WellFormed;
  }

  lemma OutputInv(w: World, s: State)
    requires Inv(w, s) && s.conn.open && !s.conn.destroyed && s.ses.phase in {Writing, InterimWriting}
    ensures Inv(w, s.(conn := s.conn.(output := true)))
    ensures Inv(w, s.(conn := s.conn.(output := false)))
  {
    hide ScanAll, Norm, InOrder, Observe, AnswersWhole, WellFormed;
  }

  lemma {:induction false} OnWriteCompleteInv(w: World, s: State)
    requires Inv(w, s) && s.conn.open && !s.conn.destroyed && !s.conn.output
    requires s.ses.phase in {Writing, InterimWriting}
    ensures CanRead(s) && Good(w, OnWriteComplete(w, s))
    decreases if s.ses.phase == Writing && s.ses.close then 0 else Size(s) + 3, 0
  {
    hide Inv, OnMessage, WellFormed, CloseExpired, CloseAfterFlush, FinishHistory;
    InvCanRead(w, s);
    var f := s.(hist := Note(s.hist, Flushed));
    if s.ses.phase == InterimWriting {
      InterimDrainedInv(w, s);
      InterimWrittenInv(w, s);
      if !s.conn.draining && !Expired(w, f) {
        OnMessageInv(w, State(s.ses.(phase := Reading), s.conn, Checked(f).hist));
      }
    } else {
      LastResponseInv(w, s);
      if !s.ses.close && !s.conn.draining {
        NextRequestInv(w, s);
        var t := FinishPending(w, f, false);
        OnMessageInv(w, State(t.ses.(parser := Fresh(), phase := Reading), s.conn, t.hist));
      }
    }
  }

  // ----- notifications -----

  lemma PolledInv(w: World, s: State)
    requires Inv(w, s) && s.ses.phase == AwaitingTask && s.conn.open && !s.conn.draining && !s.conn.destroyed
    ensures s.ses.job.Some?
    ensures var t := s.(hist := s.hist.(tick := s.hist.tick + 2));
            Inv(w, ArmContinuation(w, t)) && WakeOk(ArmContinuation(w, t))
    ensures var job := s.ses.job.value;
            var v := Polled(w, s);
            Observe(v.hist.log).Some? &&
            forall reply :: ReadyFinal(w, v, Observe(v.hist.log).value, Whole(job.request), Some(job.id), reply)
  {
    hide ScanAll, Norm, InOrder, Observe, AnswersWhole, WellFormed;
    ObserveNote(s.hist.log, Cancelled(s.ses.job.value.id));
  }

  lemma OnTaskContinuationInv(w: World, s: State, generation: nat)
    requires Inv(w, s) && Quiet(s) && s.conn.open && !s.conn.destroyed
    requires generation == s.ses.generation || WakeOk(s)
    ensures Good(w, OnTaskContinuation(w, s, generation))
  {
    hide Inv, SendFinal, WellFormed, ArmContinuation, ReadyFinal, Polled, Observe;
    if s.ses.phase == AwaitingTask && generation == s.ses.generation && !s.conn.draining {
      PolledInv(w, s);
      var job := s.ses.job.value;
      var reply := PollReply(w, job, s.hist.tick);
      ArmedQuiet(w, s.(hist := s.hist.(tick := s.hist.tick + 2)));
      if reply.Some? {
        SendFinalInv(w, Polled(w, s), Whole(job.request), Some(job.id), reply.value);
      }
    }
  }

  lemma ArmedQuiet(w: World, s: State)
    requires s.ses.job.Some? && s.ses.phase == AwaitingTask
    ensures Quiet(ArmContinuation(w, s))
  {
  }

  lemma OnFlushedInv(w: World, s: State)
    requires Good(w, s) && s.conn.open && !s.conn.destroyed && s.conn.output
    ensures CanRead(s) && Good(w, OnFlushed(w, s))
  {
    hide Inv, WellFormed, OnWriteComplete;
    InvCanRead(w, s);
    var t := s.(conn := s.conn.(output := false));
    OutputPhase(w, s);
    OutputInv(w, s);
    if !s.conn.stopped || s.conn.draining {
      OnWriteCompleteInv(w, t);
      RequestCloseInv(w, OnWriteComplete(w, t));
    } else {
      RequestCloseInv(w, t);
    }
  }

  lemma OutputPhase(w: World, s: State)
    requires Inv(w, s) && s.conn.open && !s.conn.destroyed && s.conn.output
    ensures s.ses.phase in {Writing, InterimWriting}
  {
    hide ScanAll, Norm, InOrder, Observe, AnswersWhole, WellFormed;
  }

  lemma BufferInv(w: World, s: State, data: string, eof: bool)
    requires Inv(w, s) && s.conn.open && !s.conn.destroyed
    ensures Inv(w, s.(conn := s.conn.(input := s.conn.input + data, eof := s.conn.eof || eof)))
  {
    hide ScanAll, Norm, InOrder, Observe, AnswersWhole, WellFormed;
  }

  lemma WakeSpentInv(w: World, s: State)
    requires Inv(w, s) && !s.conn.destroyed
    ensures Inv(w, s.(conn := s.conn.(wake := None)))
  {
    hide ScanAll, Norm, InOrder, Observe, AnswersWhole, WellFormed;
  }

  /** Every notification keeps the invariant, whatever the world answers. */
  lemma DeliverInv(w: World, s: State, i: Input)
    requires Good(w, s)
    ensures CanRead(s) && Good(w, Deliver(w, s, i))
  {
    hide Inv, WellFormed, OnMessage, OnTaskContinuation, OnFlushed, Destroyed, BeginDrain;
    InvCanRead(w, s);
    if !s.conn.destroyed {
      if i.Destroy? {
        DestroyedInv(w, s);
        assert !Destroyed(w, s).conn.open by { ClosedWhenDestroyed(w, Destroyed(w, s)); }
      } else if s.conn.open {
        match i {
          case Bytes(data, eof) =>
            BufferInv(w, s, data, eof);
            if !s.conn.stopped {
              OnMessageInv(w, s.(conn := s.conn.(input := s.conn.input + data, eof := s.conn.eof || eof)));
            }
          case Written =>
            if s.conn.output { OnFlushedInv(w, s); }
          case Continuation(generation) =>
            WakeSpentInv(w, s);
            var spent := s.conn.wake.Some? && s.conn.wake.value.generation == generation;
            OnTaskContinuationInv(w, if spent then s.(conn := s.conn.(wake := None)) else s, generation);
          case Drain =>
            BeginDrainInv(w, s);
            DrainQuiet(s);
          case Expire =>
            BlamedInv(w, s, ReadExpired);
            RequestCloseInv(w, Blamed(s, ReadExpired));
        }
      }
    }
  }

  lemma ClosedWhenDestroyed(w: World, s: State)
    requires Inv(w, s) && s.conn.destroyed
    ensures !s.conn.open
  {
    hide ScanAll, Norm, InOrder, Observe, AnswersWhole, WellFormed;
  }

  lemma DrainQuiet(s: State)
    requires s.conn.open
    ensures Quiet(BeginDrain(s)) && WakeOk(BeginDrain(s))
  {
  }
}
