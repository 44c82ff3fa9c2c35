/**
 A session left to finish comes to rest, in every world: told that its output was written, and polled
 for its task, it needs no more steps than its unread bytes allow and its task makes it wait.  If
 nothing went wrong on the way it has then answered everything it received.
 */
module SessionSettling {
  import opened Basics
  import opened RequestParsing
  import opened Stream
  import opened Session
  import opened SessionProtocol
  import opened SessionInvariant
  import opened SessionRuns
  import opened SessionConfluence

  // ----- how far a session is from rest -----

  /** The last response is on its way. */
  predicate Parting(s: State) {
    s.ses.phase == Writing && s.ses.close
  }

  /** Nothing is in flight and no task is awaited, or the connection is closed. */
  predicate Resting(s: State) {
    !s.conn.open || AtRest(s)
  }

  function Rank(s: State): nat {
    if Resting(s) then 0
    else if Parting(s) || s.conn.draining then 1
    else 3 * |s.conn.input| + if s.ses.phase == AwaitingTask then 3 else 2
  }

  /** At rest, parting, or with fewer than `n` bytes unread. */
  predicate Down(n: nat, s: State) {
    AtRest(s) || Parting(s) || |s.conn.input| < n
  }

  lemma DispatchConsumes(w: World, s: State, n: nat)
    requires s.ses.parser.status == Complete ==> |s.conn.input| < n
    ensures Dispatch(w, s).Stop? ==> Down(n, StateOf(Dispatch(w, s)))
  {
    hide WellFormed;
  }

  lemma HeadersStop(w: World, s: State)
    ensures OnRequestHeaders(w, s).Stop? ==> AtRest(StateOf(OnRequestHeaders(w, s)))
  {
    hide WellFormed;
  }

  lemma RespondConsumes(w: World, s: State, n: nat)
    requires s.ses.phase == Reading && (s.ses.parser.status == Complete ==> |s.conn.input| < n)
    ensures Respond(w, s).Stop? ==> Down(n, StateOf(Respond(w, s)))
  {
    hide WellFormed, Dispatch, OnRequestHeaders;
    DispatchConsumes(w, ClearReadDeadline(Checked(s)), n);
    HeadersStop(w, Checked(s));
  }

  lemma ReceiveConsumes(w: World, s: State)
    requires CanRead(s) && s.ses.phase == Reading
    ensures Receive(w, s).Stop? ==> Down(|s.conn.input|, StateOf(Receive(w, s)))
  {
    hide WellFormed, Respond, Admission, CloseResourceRejected, Feed;
    RejectPhase(w, Refusing(w, Checked(s)));
    AdmissionCalm(w, Checked(s));
    RespondConsumes(w, FeedInput(w, Admission(w, Checked(s))), |s.conn.input|);
  }

  lemma {:induction false} MessageDown(w: World, s: State)
    requires CanRead(s) && s.ses.phase == Reading
    ensures Down(|s.conn.input|, OnMessage(w, s))
    decreases Size(s) + 2, 2
  {
    hide WellFormed, Receive, Transmit;
    ReceiveProgress(w, s);
    ReceiveConsumes(w, s);
    match Receive(w, s) {
      case Stop(t) =>
      case Answer(t, answered, job, reply) =>
        TransmitDown(w, Answering(t, reply), Final(answered, job, reply), t.hist.tick);
      case Announce(t) =>
        TransmitDown(w, State(t.ses.(phase := InterimWriting), t.conn, Ask(t.hist)), Interim, t.hist.tick);
    }
  }

  lemma {:induction false} TransmitDown(w: World, s: State, e: Event, tick: nat)
    requires CanRead(s) && s.ses.phase in {Writing, InterimWriting}
    ensures var t := Transmit(w, s, e, tick);
            || AtRest(t) || Parting(t)
            || (!Parting(s) &&
                (|t.conn.input| < |s.conn.input| || (t.ses.phase == s.ses.phase && t.conn.input == s.conn.input)))
    decreases if s.ses.phase == Writing && s.ses.close then 0 else Size(s) + 3, 1
  {
    hide WellFormed, OnWriteComplete, CloseResourceRejected;
    RejectPhase(w, RequestClose(Blamed(s, SendRefused)));
    if w.send(tick).Now? {
      WriteDown(w, State(s.ses, s.conn, Note(s.hist, e)));
    }
  }

  lemma {:induction false} WriteDown(w: World, s: State)
    requires CanRead(s) && s.ses.phase in {Writing, InterimWriting}
    ensures Down(|s.conn.input|, OnWriteComplete(w, s)) && (Parting(s) ==> AtRest(OnWriteComplete(w, s)))
    decreases if s.ses.phase == Writing && s.ses.close then 0 else Size(s) + 3, 0
  {
    hide WellFormed, OnMessage, FinishHistory;
    var f := s.(hist := Note(s.hist, Flushed));
    if s.ses.phase == InterimWriting {
      if !s.conn.draining && !Expired(w, f) {
        MessageDown(w, State(s.ses.(phase := Reading), s.conn, Checked(f).hist));
      }
    } else if !s.ses.close && !s.conn.draining {
      var t := FinishPending(w, f, false);
      MessageDown(w, State(t.ses.(parser := Fresh(), phase := Reading), s.conn, t.hist));
    }
  }

  // ----- draining -----

  /** A draining connection that is still open has output queued. */
  predicate DrainOk(s: State) {
    s.conn.draining && s.conn.open ==> s.conn.output && s.conn.stopped
  }

  lemma DrainedWrite(w: World, s: State)
    requires CanRead(s) && s.conn.draining && s.conn.open && s.conn.stopped && s.ses.phase in {Writing, InterimWriting}
    ensures !OnFlushed(w, s).conn.open
  {
    hide WellFormed, OnMessage, FinishHistory;
  }

  lemma DeliverDrains(w: World, s: State, i: Input)
    requires Good(w, s) && CanRead(s) && DrainOk(s)
    ensures DrainOk(Deliver(w, s, i))
  {
    hide WellFormed, Inv, OnMessage, OnFlushed, OnTaskContinuation, FinishHistory, Good;
    if !s.conn.destroyed && s.conn.open {
      if s.conn.draining {
        DrainingStep(w, s, i);
      } else {
        NotEnded(w, s, i);
      }
    }
  }

  lemma DrainingStep(w: World, s: State, i: Input)
    requires Good(w, s) && CanRead(s) && DrainOk(s) && s.conn.draining && s.conn.open && !s.conn.destroyed
    ensures DrainOk(Deliver(w, s, i))
  {
    hide WellFormed, Inv, OnMessage, OnFlushed, FinishHistory;
    OutputPhase(w, s);
    DrainedWrite(w, s);
  }

  lemma NotEnded(w: World, s: State, i: Input)
    requires CanRead(s) && s.conn.open && !s.conn.destroyed && !s.conn.draining
    ensures i.Drain? || i.Destroy? || !Deliver(w, s, i).conn.draining
  {
    hide WellFormed, OnMessage, OnWriteComplete, OnTaskContinuation;
    match i {
      case Bytes(data, eof) =>
        MessageFlags(w, s.(conn := s.conn.(input := s.conn.input + data, eof := s.conn.eof || eof)));
      case Written => WriteFlags(w, s.(conn := s.conn.(output := false)));
      case Continuation(generation) =>
        PollFlags(w, s, generation);
        PollFlags(w, s.(conn := s.conn.(wake := None)), generation);
      case _ =>
    }
  }

  lemma {:induction false} MessageFlags(w: World, s: State)
    requires CanRead(s)
    ensures SameFlags(s, OnMessage(w, s))
    decreases Size(s) + 2, 2
  {
    hide WellFormed, Receive, Transmit;
    ReceiveProgress(w, s);
    ReceiveFlags(w, s);
    match Receive(w, s) {
      case Stop(t) =>
      case Answer(t, answered, job, reply) =>
        TransmitFlags(w, Answering(t, reply), Final(answered, job, reply), t.hist.tick);
      case Announce(t) =>
        TransmitFlags(w, State(t.ses.(phase := InterimWriting), t.conn, Ask(t.hist)), Interim, t.hist.tick);
    }
  }

  lemma {:induction false} TransmitFlags(w: World, s: State, e: Event, tick: nat)
    requires CanRead(s)
    ensures SameFlags(s, Transmit(w, s, e, tick))
    decreases if s.ses.phase == Writing && s.ses.close then 0 else Size(s) + 3, 1
  {
    hide WellFormed, OnWriteComplete;
    if w.send(tick).Now? {
      WriteFlags(w, State(s.ses, s.conn, Note(s.hist, e)));
    }
  }

  lemma {:induction false} WriteFlags(w: World, s: State)
    requires CanRead(s)
    ensures SameFlags(s, OnWriteComplete(w, s))
    decreases if s.ses.phase == Writing && s.ses.close then 0 else Size(s) + 3, 0
  {
    hide WellFormed, OnMessage, FinishHistory;
    var f := s.(hist := Note(s.hist, Flushed));
    if s.ses.phase == InterimWriting {
      if !s.conn.draining && !Expired(w, f) {
        MessageFlags(w, State(s.ses.(phase := Reading), s.conn, Checked(f).hist));
      }
    } else if s.ses.phase == Writing && !s.ses.close && !s.conn.draining {
      var t := FinishPending(w, f, false);
      MessageFlags(w, State(t.ses.(parser := Fresh(), phase := Reading), s.conn, t.hist));
    }
  }

  lemma PollFlags(w: World, s: State, generation: nat)
    ensures SameFlags(s, OnTaskContinuation(w, s, generation))
  {
    hide WellFormed, Transmit, PollMishap;
    if s.ses.phase == AwaitingTask && s.ses.job.Some? {
      var job, v := s.ses.job.value, Polled(w, s);
      var reply := PollReply(w, job, s.hist.tick);
      if reply.Some? {
        TransmitFlags(w, Answering(v, reply.value), Final(Whole(job.request), Some(job.id), reply.value), v.hist.tick);
      }
    }
  }

  lemma {:induction false} RunDrains(w: World, inputs: seq<Input>)
    ensures DrainOk(Run(w, inputs))
  {
    hide Deliver, CanRead, Inv;
    if inputs != [] {
      RunDrains(w, inputs[..|inputs| - 1]);
      DeliverDrains(w, Run(w, inputs[..|inputs| - 1]), inputs[|inputs| - 1]);
    }
  }

  // ----- one step towards rest -----

  /** What to tell a session that has not come to rest. */
  function Nudge(s: State): Input {
    if s.ses.phase == AwaitingTask then Continuation(s.ses.generation) else Written
  }

  /** What the event loop tells a session that is left to finish. */
  predicate Control(i: Input) {
    i.Written? || i.Continuation?
  }

  /** The poll of the awaited task finds nothing, and is armed again. */
  predicate EmptyPoll(w: World, s: State) {
    Awaiting(s) && PollReply(w, s.ses.job.value, s.hist.tick).None?
  }

  lemma FlushNudges(w: World, s: State)
    requires Good(w, s) && s.conn.open && !s.conn.destroyed && DrainOk(s) && s.conn.output && CanRead(s)
    requires s.ses.phase in {Writing, InterimWriting}
    ensures Rank(Deliver(w, s, Written)) < Rank(s)
  {
    hide WellFormed, Inv, OnWriteComplete;
    if s.conn.draining {
      DrainedWrite(w, s);
    } else {
      OpenNotStopped(w, s);
      WriteDown(w, s.(conn := s.conn.(output := false)));
      WriteFlags(w, s.(conn := s.conn.(output := false)));
    }
  }

  lemma PollNudges(w: World, s: State)
    requires CanRead(s) && Awaiting(s) && !EmptyPoll(w, s)
    ensures Rank(Deliver(w, s, Continuation(s.ses.generation))) < Rank(s)
  {
    hide WellFormed, Transmit, PollReply, PollMishap;
    var u := s.(conn := s.conn.(wake := None));
    var job, v := s.ses.job.value, Polled(w, u);
    var reply := PollReply(w, job, s.hist.tick).value;
    TransmitDown(w, Answering(v, reply), Final(Whole(job.request), Some(job.id), reply), v.hist.tick);
    TransmitFlags(w, Answering(v, reply), Final(Whole(job.request), Some(job.id), reply), v.hist.tick);
  }

  /** After an empty poll the session is as before, with its next wake-up set. */
  lemma EmptyPollKeeps(w: World, s: State)
    requires CanRead(s) && EmptyPoll(w, s)
    ensures var t := Deliver(w, s, Continuation(s.ses.generation));
            Awaiting(t) && t.ses == s.ses && Rank(t) == Rank(s)
  {
    hide WellFormed, SendFinal, PollReply;
  }

  lemma NudgeMatters(w: World, inputs: seq<Input>)
    requires !Resting(Run(w, inputs))
    ensures var s := Run(w, inputs);
            s.ses.phase == AwaitingTask ==> Awaiting(s)
    ensures var s, t := Run(w, inputs), Run(w, inputs + [Nudge(Run(w, inputs))]);
            if EmptyPoll(w, s) then Rank(t) == Rank(s) else Rank(t) < Rank(s)
  {
    hide WellFormed, Inv, Deliver, Rank, EmptyPoll;
    var s := Run(w, inputs);
    var i := Nudge(s);
    assert (inputs + [i])[..|inputs|] == inputs;
    RunLands(w, inputs);
    RunDrains(w, inputs);
    OpenLives(w, s);
    if s.ses.phase == AwaitingTask {
      AwaitingNotDraining(w, s);
      if EmptyPoll(w, s) {
        EmptyPollKeeps(w, s);
      } else {
        PollNudges(w, s);
      }
    } else {
      NoPollElsewhere(w, s);
      FlushNudges(w, s);
    }
  }

  lemma OpenLives(w: World, s: State)
    requires Inv(w, s) && s.conn.open
    ensures !s.conn.destroyed
  {
    hide ScanAll, Norm, InOrder, Observe, AnswersWhole, WellFormed;
  }

  lemma AwaitingNotDraining(w: World, s: State)
    requires Good(w, s) && DrainOk(s) && s.conn.open && !s.conn.destroyed && s.ses.phase == AwaitingTask
    ensures Awaiting(s)
  {
    hide Inv;
    if s.conn.draining {
      OutputPhase(w, s);
    }
  }

  lemma NoPollElsewhere(w: World, s: State)
    requires s.ses.phase != AwaitingTask
    ensures !EmptyPoll(w, s)
  {
  }

  // ----- many steps -----

  /** The notifications, followed by at most `n` nudges, until the session rests. */
  function Nudged(w: World, inputs: seq<Input>, n: nat): seq<Input> {
    if n == 0 then inputs
    else
      var before := Nudged(w, inputs, n - 1);
      if Resting(Run(w, before)) then before else before + [Nudge(Run(w, before))]
  }

  function Left(w: World, inputs: seq<Input>, n: nat): State {
    Run(w, Nudged(w, inputs, n))
  }

  /** How many of the nudges were polls that found nothing. */
  function EmptyPolls(w: World, inputs: seq<Input>, n: nat): nat {
    if n == 0 then 0
    else EmptyPolls(w, inputs, n - 1) + if EmptyPoll(w, Left(w, inputs, n - 1)) then 1 else 0
  }

  lemma LeftFirst(w: World, inputs: seq<Input>)
    ensures Left(w, inputs, 0) == Run(w, inputs)
  {
    hide Run;
  }

  lemma LeftNext(w: World, inputs: seq<Input>, k: nat)
    ensures var s, t := Left(w, inputs, k), Left(w, inputs, k + 1);
            && (Resting(s) ==> t == s)
            && (!Resting(s) ==> if EmptyPoll(w, s) then Rank(t) == Rank(s) else Rank(t) < Rank(s))
  {
    hide Run, Rank, EmptyPoll, Resting, Good, CanRead;
    if !Resting(Left(w, inputs, k)) {
      NudgeMatters(w, Nudged(w, inputs, k));
    }
  }

  /** In every world, after any notifications, each nudge that is not an empty poll brings the session
      nearer to rest: it rests after as many nudges as its rank and the empty polls together. */
  lemma {:induction false} NudgesCount(w: World, inputs: seq<Input>, n: nat)
    ensures Resting(Left(w, inputs, n)) ||
            n + Rank(Left(w, inputs, n)) <= Rank(Run(w, inputs)) + EmptyPolls(w, inputs, n)
  {
    hide Run, Rank, EmptyPoll, Resting, Good, CanRead, Left, Nudged;
    if n == 0 {
      LeftFirst(w, inputs);
    } else {
      NudgesCount(w, inputs, n - 1);
      LeftNext(w, inputs, n - 1);
    }
  }

  lemma RestIsZero(s: State)
    ensures Resting(s) <==> Rank(s) == 0
  {
  }

  /** No rest is reached before the `n`-th nudge. */
  ghost predicate RestlessUntil(w: World, inputs: seq<Input>, n: nat) {
    forall k: nat :: k < n ==> !Resting(Left(w, inputs, k))
  }

  lemma FirstRestIsSoon(w: World, inputs: seq<Input>, n: nat)
    requires RestlessUntil(w, inputs, n)
    ensures n <= Rank(Run(w, inputs)) + EmptyPolls(w, inputs, n)
  {
    hide Run, Rank, EmptyPoll, Resting, Left, Good, CanRead, Nudged;
    if n > 0 {
      assert !Resting(Left(w, inputs, n - 1));
      NudgesCount(w, inputs, n - 1);
      RestIsZero(Left(w, inputs, n - 1));
    }
  }

  // ----- waiting ends -----

  /** No timer fires early on the way to rest. */
  ghost predicate PunctualNudges(w: World, inputs: seq<Input>) {
    forall k: nat :: PunctualAt(w, Left(w, inputs, k))
  }

  predicate PunctualAt(w: World, s: State) {
    OnTime(w, s, Nudge(s))
  }

  /** From the `k`-th nudge on, the next `m` are empty polls. */
  ghost predicate OnlyEmpty(w: World, inputs: seq<Input>, k: nat, m: nat) {
    forall j: nat :: k <= j < k + m ==> EmptyPoll(w, Left(w, inputs, j))
  }

  lemma EmptyStep(w: World, inputs: seq<Input>, k: nat)
    requires EmptyPoll(w, Left(w, inputs, k))
    ensures var s, t := Left(w, inputs, k), Left(w, inputs, k + 1);
            && Nudge(s) == Continuation(s.ses.generation)
            && t == Deliver(w, s, Nudge(s)) && Awaiting(s) && Awaiting(t) && t.ses == s.ses && Rank(t) == Rank(s)
  {
    hide Deliver, Good;
    var before := Nudged(w, inputs, k);
    var s := Run(w, before);
    assert (before + [Nudge(s)])[..|before|] == before;
    EmptyPollKeeps(w, s);
  }

  lemma {:induction false} EmptyRow(w: World, inputs: seq<Input>, k: nat, m: nat)
    requires MonotoneClock(w) && PunctualNudges(w, inputs) && OnlyEmpty(w, inputs, k, m) && m > 0
    ensures WaitedTo(Left(w, inputs, k), Left(w, inputs, k + m), m)
  {
    hide Run, EmptyPoll, Deliver, WaitedTo, Awaiting, MonotoneClock, Good, CanRead, Left, Rank, Nudge, OnTime;
    var s, u := Left(w, inputs, k), Left(w, inputs, k + m - 1);
    assert EmptyPoll(w, s) && EmptyPoll(w, u) && PunctualAt(w, u);
    EmptyStep(w, inputs, k);
    EmptyStep(w, inputs, k + m - 1);
    LeftIsGood(w, inputs, k + m - 1);
    if m == 1 {
      WaitedNone(s);
    } else {
      EmptyRow(w, inputs, k, m - 1);
    }
    WaitingAdds(w, s, u, Nudge(u), m - 1);
  }

  lemma LeftIsGood(w: World, inputs: seq<Input>, k: nat)
    ensures Good(w, Left(w, inputs, k)) && CanRead(Left(w, inputs, k))
  {
    hide Good, CanRead;
  }

  /** With a monotone clock and punctual timers a task is polled in vain at most once every 5 ms of the
      time it was given. */
  lemma PatienceIsBounded(w: World, inputs: seq<Input>, k: nat, m: nat)
    requires MonotoneClock(w) && PunctualNudges(w, inputs) && OnlyEmpty(w, inputs, k, m) && m > 0
    ensures var s := Left(w, inputs, k);
            Awaiting(s) && (m - 1) * TASK_POLL_NS < s.ses.job.value.deadline - s.conn.wake.value.at
  {
    hide Run, Left;
    EmptyRow(w, inputs, k, m);
  }

  /** The time a waiting session still has. */
  function Patience(s: State): nat {
    if Awaiting(s) then Max(0, s.ses.job.value.deadline - s.conn.wake.value.at) else 0
  }

  lemma PatienceShrinks(w: World, inputs: seq<Input>, k: nat)
    requires MonotoneClock(w) && PunctualNudges(w, inputs) && EmptyPoll(w, Left(w, inputs, k))
    ensures Patience(Left(w, inputs, k + 1)) < Patience(Left(w, inputs, k))
    ensures Rank(Left(w, inputs, k + 1)) == Rank(Left(w, inputs, k))
  {
    hide Run, Left, Rank;
    var s := Left(w, inputs, k);
    EmptyStep(w, inputs, k);
    EmptyRow(w, inputs, k, 1);
  }

  /** Under a monotone clock and punctual timers every session comes to rest, whatever it has received,
      whatever goes wrong on the way and however often it has to ask for its tasks. */
  lemma ComesToRest(w: World, inputs: seq<Input>) returns (n: nat)
    requires MonotoneClock(w) && PunctualNudges(w, inputs)
    ensures Resting(Left(w, inputs, n)) && RestlessUntil(w, inputs, n)
    ensures n <= Rank(Run(w, inputs)) + EmptyPolls(w, inputs, n)
  {
    hide Run, Rank, EmptyPoll, Left, Resting;
    n := RestFrom(w, inputs, 0);
    FirstRestIsSoon(w, inputs, n);
  }

  lemma {:induction false} RestFrom(w: World, inputs: seq<Input>, k: nat) returns (n: nat)
    requires MonotoneClock(w) && PunctualNudges(w, inputs) && RestlessUntil(w, inputs, k)
    ensures Resting(Left(w, inputs, n)) && RestlessUntil(w, inputs, n)
    decreases Rank(Left(w, inputs, k)), Patience(Left(w, inputs, k))
  {
    hide Run, Rank, EmptyPoll, Resting, Patience, MonotoneClock, PunctualNudges, Good, CanRead, Left;
    if Resting(Left(w, inputs, k)) {
      n := k;
    } else {
      LeftNext(w, inputs, k);
      if EmptyPoll(w, Left(w, inputs, k)) {
        PatienceShrinks(w, inputs, k);
      }
      n := RestFrom(w, inputs, k + 1);
    }
  }

  // ----- what the session has answered by then -----

  lemma ControlBringsNothing(inputs: seq<Input>, i: Input)
    requires Control(i)
    ensures AllData(inputs + [i]) == AllData(inputs) && AnyEnd(inputs + [i]) == AnyEnd(inputs)
    ensures Proper(inputs) ==> Proper(inputs + [i])
  {
    AllDataAppend(inputs, i);
    var all := inputs + [i];
    EndsWith(all, |all|);
    assert all[..|all|] == all && all[..|all| - 1] == inputs;
    assert forall k :: 0 <= k < |inputs| ==> all[k] == inputs[k];
  }

  lemma {:induction false} AllDataAppend(inputs: seq<Input>, i: Input)
    ensures AllData(inputs + [i]) == AllData(inputs) + DataOf(i)
  {
    if inputs == [] {
      assert inputs + [i] == [i] && [i][1..] == [];
    } else {
      AllDataAppend(inputs[1..], i);
      var rest := inputs[1..];
      assert (inputs + [i])[1..] == rest + [i] && (inputs + [i])[0] == inputs[0];
      assert DataOf(inputs[0]) + (AllData(rest) + DataOf(i)) == DataOf(inputs[0]) + AllData(rest) + DataOf(i);
    }
  }

  lemma {:induction false} NudgedIsProper(w: World, inputs: seq<Input>, n: nat)
    requires Proper(inputs)
    ensures var all := Nudged(w, inputs, n);
            Proper(all) && AllData(all) == AllData(inputs) && AnyEnd(all) == AnyEnd(inputs)
  {
    hide Run, Proper, AllData, AnyEnd, Resting, Good, CanRead, Nudge, Control;
    if n > 0 {
      NudgedIsProper(w, inputs, n - 1);
      var before := Nudged(w, inputs, n - 1);
      NudgeIsControl(Run(w, before));
      ControlBringsNothing(before, Nudge(Run(w, before)));
    }
  }

  lemma NudgeIsControl(s: State)
    ensures Control(Nudge(s))
  {
    hide WellFormed;
  }

  /** A session that rests without a mishap has given exactly the responses of the reference. */
  lemma RestServes(w: World, site: Site, inputs: seq<Input>, n: nat)
    requires Plays(w, site) && Proper(inputs) && Resting(Left(w, inputs, n)) && Clean(Left(w, inputs, n))
    ensures Outs(Left(w, inputs, n).hist.log) == Serve(site, Fresh(), AllData(inputs), AnyEnd(inputs), false)
  {
    hide Plays, Run, Inv, Serve, Outs, Proper, Clean, AllData, AnyEnd, Nudged, Total, CanRead, Good;
    var all := Nudged(w, inputs, n);
    NudgedIsProper(w, inputs, n);
    assert all[..|all|] == all;
    PrefixServes(w, site, all, |all|);
    RunServes(w, site, all);
  }

  /** In every world, whatever its clock and however long its tasks take: once a run has been nudged as
      often as its rank and its empty polls together it rests, and then either something went wrong
      and is on record or it has given exactly the responses of the reference. */
  lemma SettlesIn(w: World, site: Site, inputs: seq<Input>, n: nat)
    requires Plays(w, site) && Proper(inputs) && n >= Rank(Run(w, inputs)) + EmptyPolls(w, inputs, n)
    ensures Resting(Left(w, inputs, n))
    ensures !Clean(Left(w, inputs, n)) ||
            Outs(Left(w, inputs, n).hist.log) == Serve(site, Fresh(), AllData(inputs), AnyEnd(inputs), false)
  {
    hide Plays, Run, Serve, Outs, Proper, Left, Rank, Resting;
    NudgesCount(w, inputs, n);
    RestIsZero(Left(w, inputs, n));
    if Clean(Left(w, inputs, n)) {
      RestServes(w, site, inputs, n);
    }
  }

  /** With a monotone clock and timers that do not fire early that many nudges are always enough. */
  lemma Settles(w: World, site: Site, inputs: seq<Input>) returns (n: nat)
    requires Plays(w, site) && Proper(inputs) && MonotoneClock(w) && PunctualNudges(w, inputs)
    ensures Resting(Left(w, inputs, n)) && n <= Rank(Run(w, inputs)) + EmptyPolls(w, inputs, n)
    ensures !Clean(Left(w, inputs, n)) ||
            Outs(Left(w, inputs, n).hist.log) == Serve(site, Fresh(), AllData(inputs), AnyEnd(inputs), false)
  {
    hide Plays, Run, Serve, Outs, Proper, Left, Rank, Resting;
    n := ComesToRest(w, inputs);
    if Clean(Left(w, inputs, n)) {
      RestServes(w, site, inputs, n);
    }
  }

  // ----- what can go wrong in a world that refuses nothing -----

  /** The budget, the transport and the timers never refuse, and collecting a result never throws. */
  ghost predicate Willing(w: World) {
    && (forall t: nat :: w.send(t) != Rejected && w.acquire(t) && w.arm(t))
    && (forall t: nat, j: Job :: !w.collect(t, j).CollectThrows?)
  }

  /** Within one read timeout the clock never gets to its end. */
  ghost predicate Unhurried(w: World) {
    forall t: nat, u: nat :: w.now(u) < w.now(t) + w.readTimeout
  }

  /** Tasks are ready when first asked, and given the time for that. */
  ghost predicate Prompt(w: World) {
    && (forall t: nat, j: Job :: w.collect(t, j).Ready?)
    && (forall t: nat, r: Request :: w.submit(t, r).Accepted? ==>
          w.now(t + 2) < w.submit(t, r).deadline && w.now(t + 3) < w.submit(t, r).deadline)
  }

  /** A time limit that this world can reach. */
  ghost predicate Excused(w: World, m: Mishap) {
    || (m == ReadExpired && w.readTimeout > 0 && !Unhurried(w))
    || (m == TaskOverdue && !Prompt(w))
  }

  ghost predicate NeverReached(w: World, deadline: int) {
    forall t: nat :: w.now(t) < deadline
  }

  /** Only reached time limits are on record, and those that are set can be reached only if the world
      lets them be. */
  ghost predicate Spared(w: World, s: State) {
    && (forall m :: m in s.hist.mishaps ==> Excused(w, m))
    && (s.ses.readDeadline.Some? ==>
          w.readTimeout > 0 && (Unhurried(w) ==> NeverReached(w, s.ses.readDeadline.value)))
    && (s.ses.job.Some? && Prompt(w) ==>
          w.now(s.hist.tick) < s.ses.job.value.deadline && w.now(s.hist.tick + 1) < s.ses.job.value.deadline)
  }

  /** Limits are kept or dropped. */
  lemma StaysSpared(w: World, s: State, t: State)
    requires Spared(w, s) && t.hist.mishaps == s.hist.mishaps
    requires t.ses.readDeadline.None? || t.ses.readDeadline == s.ses.readDeadline
    requires t.ses.job.None? || (t.ses.job == s.ses.job && t.hist.tick == s.hist.tick)
    ensures Spared(w, t)
  {
    hide Excused, Unhurried, Prompt, NeverReached;
  }

  lemma ExpirySpared(w: World, s: State)
    requires Spared(w, s) && Expired(w, s) && s.ses.job.None?
    ensures Spared(w, CloseExpired(s))
  {
    hide Unhurried, Prompt;
    assert !Unhurried(w);
  }

  lemma CheckedSpared(w: World, s: State)
    requires Spared(w, s) && s.ses.job.None?
    ensures Spared(w, Checked(s))
  {
    hide Spared;
    StaysSpared(w, s, Checked(s));
  }

  lemma AdmissionSpared(w: World, s: State)
    requires Willing(w) && Spared(w, s) && s.ses.job.None?
    ensures Admitted(w, s) && Spared(w, Admission(w, s)) && Admission(w, s).ses.job.None?
  {
    hide Excused, Prompt;
    if Opens(s) {
      assert w.acquire(Opened(w, s).hist.tick);
    }
  }

  lemma SubmitSpared(w: World, s: State, deadline: int)
    requires Willing(w) && Spared(w, s) && s.ses.job.None?
    requires Prompt(w) ==> w.now(s.hist.tick + 1) < deadline && w.now(s.hist.tick + 2) < deadline
    ensures Spared(w, StateOf(SubmitJob(w, s, deadline))) && SubmitJob(w, s, deadline).Stop?
  {
    hide WellFormed, Excused, Unhurried, Prompt, NeverReached;
    assert w.arm(s.hist.tick);
  }

  predicate Jobless(a: Action) {
    !a.Stop? ==> a.s.ses.job.None?
  }

  lemma CompleteSpared(w: World, s: State)
    requires Willing(w) && Spared(w, s) && s.ses.job.None?
    ensures Spared(w, StateOf(DispatchComplete(w, s))) && Jobless(DispatchComplete(w, s))
  {
    hide WellFormed, SubmitJob, Spared, Willing, Prompt;
    var request := RequestOf(s.ses.parser);
    var t := s.(hist := Ask(s.hist));
    StaysSpared(w, s, t);
    StaysSpared(w, s, t.(hist := Ask(t.hist)));
    var submission := w.submit(s.hist.tick, request);
    if submission.Accepted? {
      PromptTime(w, s.hist.tick, request);
      SubmitSpared(w, t, submission.deadline);
    }
  }

  lemma PromptTime(w: World, t: nat, r: Request)
    requires w.submit(t, r).Accepted?
    ensures Prompt(w) ==> w.now(t + 2) < w.submit(t, r).deadline && w.now(t + 3) < w.submit(t, r).deadline
  {
  }

  lemma DispatchSpared(w: World, s: State)
    requires Willing(w) && Spared(w, s) && s.ses.job.None?
    ensures Spared(w, StateOf(Dispatch(w, s))) && Jobless(Dispatch(w, s))
  {
    hide WellFormed, DispatchComplete, Spared, Willing;
    var p := s.ses.parser;
    var t := s.(ses := s.ses.(close := p.status != Complete || p.fields.close, phase := Writing),
                conn := s.conn.(paused := true));
    StaysSpared(w, s, t);
    if p.status == Complete {
      CompleteSpared(w, t);
    }
  }

  lemma HeadersSpared(w: World, s: State)
    requires Spared(w, s) && s.ses.job.None?
    ensures Spared(w, StateOf(OnRequestHeaders(w, s))) && Jobless(OnRequestHeaders(w, s))
  {
    hide WellFormed, Spared, CloseExpired;
    var t := s.(hist := Ask(s.hist));
    StaysSpared(w, s, t);
    if Expired(w, t) {
      ExpirySpared(w, t);
    } else {
      StaysSpared(w, s, StateOf(OnRequestHeaders(w, s)));
    }
  }

  lemma RespondSpared(w: World, s: State)
    requires Willing(w) && Spared(w, s) && s.ses.job.None?
    ensures Spared(w, StateOf(Respond(w, s))) && Jobless(Respond(w, s))
  {
    hide WellFormed, Spared, Willing, CloseExpired, Dispatch, OnRequestHeaders, Expired;
    CheckedSpared(w, s);
    var p := s.ses.parser;
    if p.status == NeedMore && !s.conn.eof {
      StaysSpared(w, s, s.(conn := s.conn.(paused := false)));
    } else if p.status == NeedMore && s.ses.completed && p.requestBytes == 0 {
      StaysSpared(w, s, CloseAfterFlush(s.(ses := s.ses.(phase := Closing))));
    } else if Expired(w, s) {
      ExpirySpared(w, s);
    } else if p.status == HeadersComplete {
      HeadersSpared(w, Checked(s));
    } else {
      StaysSpared(w, s, ClearReadDeadline(Checked(s)));
      DispatchSpared(w, ClearReadDeadline(Checked(s)));
    }
  }

  lemma ReceiveSpared(w: World, s: State)
    requires Willing(w) && Spared(w, s) && s.ses.job.None?
    ensures Spared(w, StateOf(Receive(w, s))) && Jobless(Receive(w, s))
  {
    hide WellFormed, Spared, Willing, CloseExpired, Respond, Refusal, Admission, Feed, Expired;
    if s.ses.phase == Reading && !s.conn.draining {
      if Expired(w, s) {
        ExpirySpared(w, s);
      } else {
        CheckedSpared(w, s);
        AdmissionSpared(w, Checked(s));
        var a := Admission(w, Checked(s));
        StaysSpared(w, a, FeedInput(w, a));
        RespondSpared(w, FeedInput(w, a));
      }
    }
  }

  lemma {:induction false} MessageSpared(w: World, s: State)
    requires Willing(w) && Spared(w, s) && CanRead(s) && s.ses.job.None?
    ensures Spared(w, OnMessage(w, s))
    decreases Size(s) + 2, 2
  {
    hide WellFormed, Receive, Transmit, Spared, Willing;
    ReceiveProgress(w, s);
    ReceiveSpared(w, s);
    match Receive(w, s) {
      case Stop(t) =>
      case Answer(t, answered, job, reply) =>
        StaysSpared(w, t, Answering(t, reply));
        TransmitSpared(w, Answering(t, reply), Final(answered, job, reply), t.hist.tick);
      case Announce(t) =>
        var u := State(t.ses.(phase := InterimWriting), t.conn, Ask(t.hist));
        StaysSpared(w, t, u);
        TransmitSpared(w, u, Interim, t.hist.tick);
    }
  }

  lemma {:induction false} TransmitSpared(w: World, s: State, e: Event, tick: nat)
    requires Willing(w) && Spared(w, s) && CanRead(s) && s.ses.job.None?
    ensures Spared(w, Transmit(w, s, e, tick))
    decreases if s.ses.phase == Writing && s.ses.close then 0 else Size(s) + 3, 1
  {
    hide WellFormed, OnWriteComplete, Spared;
    var sent := State(s.ses, s.conn, Note(s.hist, e));
    assert w.send(tick) != Rejected;
    StaysSpared(w, s, sent);
    StaysSpared(w, s, State(s.ses, s.conn.(output := true), Note(s.hist, e)));
    if w.send(tick).Now? {
      WriteSpared(w, sent);
    }
  }

  lemma {:induction false} WriteSpared(w: World, s: State)
    requires Willing(w) && Spared(w, s) && CanRead(s) && s.ses.job.None?
    ensures Spared(w, OnWriteComplete(w, s))
    decreases if s.ses.phase == Writing && s.ses.close then 0 else Size(s) + 3, 0
  {
    hide WellFormed, OnMessage, Spared, Willing, CloseExpired, Expired;
    var f := s.(hist := Note(s.hist, Flushed));
    StaysSpared(w, s, f);
    if s.ses.phase == InterimWriting {
      if s.conn.draining {
        StaysSpared(w, s, OnWriteComplete(w, s));
      } else if Expired(w, f) {
        ExpirySpared(w, f);
      } else {
        var t := State(s.ses.(phase := Reading), s.conn, Checked(f).hist);
        StaysSpared(w, s, t);
        MessageSpared(w, t);
      }
    } else if s.ses.phase == Writing {
      var t := FinishPending(w, f, false);
      if s.ses.close || s.conn.draining {
        StaysSpared(w, s, OnWriteComplete(w, s));
      } else {
        var u := State(t.ses.(parser := Fresh(), phase := Reading), s.conn, t.hist);
        StaysSpared(w, s, u);
        MessageSpared(w, u);
      }
    }
  }

  lemma PollSpared(w: World, s: State, generation: nat)
    requires Willing(w) && Spared(w, s)
    ensures Spared(w, OnTaskContinuation(w, s, generation))
  {
    hide WellFormed, Transmit, Spared, PollReply, PollMishap;
    if s.ses.phase == AwaitingTask && generation == s.ses.generation && s.ses.job.Some? && !s.conn.draining {
      var job, v := s.ses.job.value, Polled(w, s);
      PolledSpared(w, s);
      var reply := PollReply(w, job, s.hist.tick);
      if reply.Some? {
        StaysSpared(w, v, Answering(v, reply.value));
        TransmitSpared(w, Answering(v, reply.value), Final(Whole(job.request), Some(job.id), reply.value), v.hist.tick);
      }
    }
  }

  lemma PolledSpared(w: World, s: State)
    requires Willing(w) && Spared(w, s) && s.ses.job.Some?
    ensures Spared(w, Polled(w, s))
    ensures PollReply(w, s.ses.job.value, s.hist.tick).None? ==>
              Spared(w, ArmContinuation(w, s.(hist := s.hist.(tick := s.hist.tick + 2))))
  {
    var job, t := s.ses.job.value, s.hist.tick;
    assert !w.collect(t, job).CollectThrows? && w.arm(t + 2);
    assert Prompt(w) ==> w.collect(t, job).Ready?;
    hide Unhurried, Prompt, NeverReached, Willing;
  }

  lemma DeliverSpared(w: World, s: State, i: Input)
    requires Good(w, s) && Willing(w) && Spared(w, s) && (i.Bytes? || Control(i))
    ensures CanRead(s) && Spared(w, Deliver(w, s, i))
  {
    hide WellFormed, Inv, OnMessage, OnTaskContinuation, Spared, OnWriteComplete, Willing;
    InvCanRead(w, s);
    if s.conn.open && !s.conn.destroyed {
      match i {
        case Bytes(data, eof) =>
          var b := s.(conn := s.conn.(input := s.conn.input + data, eof := s.conn.eof || eof));
          StaysSpared(w, s, b);
          if s.ses.phase == Reading {
            BusyJobless(w, s);
            MessageSpared(w, b);
          } else {
            IdleMessage(w, b);
          }
        case Written =>
          if s.conn.output {
            FlushSpared(w, s);
          }
        case Continuation(generation) =>
          var u := s.(conn := s.conn.(wake := None));
          StaysSpared(w, s, u);
          PollSpared(w, u, generation);
          PollSpared(w, s, generation);
        case _ =>
      }
    }
  }

  lemma BusyJobless(w: World, s: State)
    requires Inv(w, s) && !s.conn.destroyed && s.ses.phase != AwaitingTask
    ensures s.ses.job.None?
  {
    hide ScanAll, Norm, InOrder, Observe, AnswersWhole, WellFormed;
  }

  lemma FlushSpared(w: World, s: State)
    requires Good(w, s) && Willing(w) && Spared(w, s) && s.conn.open && !s.conn.destroyed && s.conn.output
    ensures CanRead(s) && Spared(w, OnFlushed(w, s))
  {
    hide WellFormed, Inv, OnWriteComplete, Spared, Willing;
    InvCanRead(w, s);
    OutputPhase(w, s);
    BusyJobless(w, s);
    var b := s.(conn := s.conn.(output := false));
    StaysSpared(w, s, b);
    WriteSpared(w, b);
    var t := if !s.conn.stopped || s.conn.draining then OnWriteComplete(w, b) else b;
    StaysSpared(w, t, RequestClose(t));
  }

  /** Bytes, completed writes and polls, in any order. */
  predicate Exchange(inputs: seq<Input>) {
    forall k :: 0 <= k < |inputs| ==> inputs[k].Bytes? || Control(inputs[k])
  }

  /** In a world that refuses nothing only its own time limits can come between a session and its
      application. */
  lemma {:induction false} RunSpared(w: World, inputs: seq<Input>)
    requires Willing(w) && Exchange(inputs)
    ensures Spared(w, Run(w, inputs))
  {
    hide Deliver, Inv, Willing;
    if inputs != [] {
      hide Spared;
      var before, i := inputs[..|inputs| - 1], inputs[|inputs| - 1];
      RunSpared(w, before);
      DeliverSpared(w, Run(w, before), i);
    }
  }

  lemma {:induction false} NudgedIsExchange(w: World, inputs: seq<Input>, n: nat)
    requires Exchange(inputs)
    ensures Exchange(Nudged(w, inputs, n))
  {
    hide Run, Resting, Exchange, Good, CanRead, Nudge, Control;
    if n > 0 {
      NudgedIsExchange(w, inputs, n - 1);
      var before := Nudged(w, inputs, n - 1);
      ExchangeGoesOn(before, Run(w, before));
    }
  }

  lemma ExchangeGoesOn(inputs: seq<Input>, s: State)
    requires Exchange(inputs)
    ensures Exchange(inputs + [Nudge(s)])
  {
    hide WellFormed;
  }

  /** In a world that refuses nothing, with a monotone clock and punctual timers, every exchange comes to
      rest with the responses of the reference, unless a time limit of that world was reached. */
  lemma OnlyTimeInterferes(w: World, site: Site, inputs: seq<Input>) returns (n: nat)
    requires Plays(w, site) && Willing(w) && Proper(inputs) && Exchange(inputs)
    requires MonotoneClock(w) && PunctualNudges(w, inputs)
    ensures Resting(Left(w, inputs, n)) && n <= Rank(Run(w, inputs)) + EmptyPolls(w, inputs, n)
    ensures forall m :: m in Left(w, inputs, n).hist.mishaps ==> Excused(w, m)
    ensures !Clean(Left(w, inputs, n)) ||
            Outs(Left(w, inputs, n).hist.log) == Serve(site, Fresh(), AllData(inputs), AnyEnd(inputs), false)
  {
    hide Plays, Run, Serve, Outs, Proper, Rank, Resting, Excused, Willing, Nudged;
    n := Settles(w, site, inputs);
    NudgedIsExchange(w, inputs, n);
    RunSpared(w, Nudged(w, inputs, n));
  }

  // ----- every site, every mixture of sends -----

  /** A world for any site: a budget and sends that never refuse, tasks that are ready when asked. */
  function KindWorld(site: Site, delivery: nat -> Delivery, readTimeout: nat, clock: nat -> int): World {
    World(site.grammar, readTimeout, true, site.errorContent, clock, (t: nat) => true, delivery,
          (t: nat, h: Head) => site.head(h),
          (t: nat, r: Request) =>
            if site.submit(r).Accepted? then Accepted(Max(clock(t + 2), clock(t + 3)) + 1) else site.submit(r),
          (t: nat, r: Request) => site.provide(r), (t: nat) => true, (t: nat, j: Job) => Ready(site.task(j.request)))
  }

  lemma {:induction false} NoEmptyPolls(w: World, inputs: seq<Input>, n: nat)
    requires Willing(w) && Prompt(w) && Exchange(inputs)
    ensures EmptyPolls(w, inputs, n) == 0
  {
    hide Run, Willing, Nudged, Prompt;
    if n > 0 {
      NoEmptyPolls(w, inputs, n - 1);
      NudgedIsExchange(w, inputs, n - 1);
      RunSpared(w, Nudged(w, inputs, n - 1));
      PromptReply(w, Left(w, inputs, n - 1));
    }
  }

  lemma PromptReply(w: World, s: State)
    requires Prompt(w) && Spared(w, s)
    ensures !EmptyPoll(w, s)
  {
    if s.ses.job.Some? {
      assert w.collect(s.hist.tick, s.ses.job.value).Ready?;
    }
  }

  /** Every application is served: with every mixture of immediate and later sends, under every clock and
      read timeout, however the bytes are cut into reads and mixed with notifications, the session comes
      to rest within its rank, and its responses are those of the reference unless the read timeout
      struck.  That needs a read timeout, and a clock that runs past it. */
  lemma EverySiteIsServed(
      site: Site, delivery: nat -> Delivery, readTimeout: nat, clock: nat -> int, inputs: seq<Input>)
    requires forall t: nat :: delivery(t) != Rejected
    requires Proper(inputs) && Exchange(inputs)
    ensures var w := KindWorld(site, delivery, readTimeout, clock);
            var s := Left(w, inputs, Rank(Run(w, inputs)));
            && Resting(s) && (forall m :: m in s.hist.mishaps ==> m == ReadExpired)
            && (readTimeout == 0 || Unhurried(w) ==> Clean(s))
            && (Clean(s) ==> Outs(s.hist.log) == Serve(site, Fresh(), AllData(inputs), AnyEnd(inputs), false))
  {
    hide Run, Serve, Outs, Proper, Resting, Rank;
    var w := KindWorld(site, delivery, readTimeout, clock);
    assert Plays(w, site) && Willing(w) && Prompt(w) && w.readTimeout == readTimeout;
    hide Plays, Willing, Prompt, Unhurried, Clean;
    var n := Rank(Run(w, inputs));
    NoEmptyPolls(w, inputs, n);
    NudgedIsExchange(w, inputs, n);
    RunSpared(w, Nudged(w, inputs, n));
    NothingExcused(w, Left(w, inputs, n));
    SettlesIn(w, site, inputs, n);
  }

  lemma NothingExcused(w: World, s: State)
    requires Spared(w, s) && Prompt(w)
    ensures forall m :: m in s.hist.mishaps ==> m == ReadExpired
    ensures w.readTimeout == 0 || Unhurried(w) ==> Clean(s)
  {
    hide Prompt, Unhurried;
    FirstIsIn(s.hist.mishaps);
  }

  lemma FirstIsIn(mishaps: seq<Mishap>)
    ensures mishaps != [] ==> mishaps[0] in mishaps
  {
  }
}
