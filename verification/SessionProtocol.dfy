/**
 The protocol a session must follow, as a monitor over its history of events.  `Legal` says
 when an event may happen; a history is lawful when every event in it was legal when it
 happened.  The monitor knows nothing of phases, reads or reentrancy.
 */
module SessionProtocol {
  import opened Basics
  import opened RequestParsing
  import opened Session

  datatype Monitor = Monitor(
    pending: bool, lease: bool, answered: bool, announced: bool, inflight: bool,
    draining: bool, closed: bool,
    openJob: Option<(nat, Request)>, doneJob: Option<(nat, Request)>, jobs: nat,
    beganAt: int, begun: nat, completed: nat, aborted: nat, answers: seq<Answered>)

  const IDLE := Monitor(
    false, false, false, false, false, false, false, None, None, 0, 0, 0, 0, 0, [])

  /** When a final response may be sent, and for which job. */
  predicate FinalLegal(m: Monitor, answered: Answered, job: Option<nat>) {
    && !m.closed && !m.draining && !m.inflight && !m.answered && m.openJob.None?
    && (m.pending || (m.begun == 0 && answered == Truncated))
    && (job.Some? <==> m.doneJob.Some?)
    && (job.Some? ==> m.doneJob == Some((job.value, m.doneJob.value.1)) && answered == Whole(m.doneJob.value.1))
  }

  predicate Legal(m: Monitor, e: Event) {
    match e
    case Began(_) =>
      !m.pending && !m.lease && !m.inflight && !m.closed && m.openJob.None? && (m.answered <==> m.begun > 0)
    case Acquired => m.pending && !m.lease && !m.answered
    case Refused => m.pending && !m.lease && !m.answered
    case Released => m.lease
    case Finished(aborted, _, _, _) => m.pending && !m.lease && (aborted || (m.answered && !m.inflight))
    case Interim =>
      m.pending && !m.closed && !m.draining && !m.inflight && !m.answered && !m.announced && m.openJob.None?
    case Final(answered, job, _) => FinalLegal(m, answered, job)
    case Submitted(id, _) => m.pending && !m.answered && m.openJob.None? && m.doneJob.None? && id == m.jobs
    case Cancelled(id) => m.openJob.Some? && m.openJob.value.0 == id
    case Flushed => m.inflight
    case Draining => !m.draining && !m.closed
    case Closed => !m.closed
  }

  function Next(m: Monitor, e: Event): Monitor
  {
    match e
    case Began(time) =>
      m.(pending := true, answered := false, announced := false, doneJob := None, beganAt := time,
         begun := m.begun + 1)
    case Acquired => m.(lease := true)
    case Refused => m
    case Released => m.(lease := false)
    case Finished(aborted, _, _, _) =>
      m.(pending := false, aborted := m.aborted + (if aborted then 1 else 0),
         completed := m.completed + (if aborted then 0 else 1))
    case Interim => m.(announced := true, inflight := true)
    case Final(answered, _, _) => m.(answered := true, inflight := true, answers := m.answers + [answered])
    case Submitted(id, request) => m.(openJob := Some((id, request)), jobs := m.jobs + 1)
    case Cancelled(_) => m.(doneJob := m.openJob, openJob := None)
    case Flushed => m.(inflight := false)
    case Draining => m.(draining := true)
    case Closed => m.(closed := true)
  }

  /** The monitor after a history, or `None` once an event was illegal. */
  function Observe(log: seq<Event>): Option<Monitor>
    decreases |log|
  {
    if log == [] then Some(IDLE)
    else
      match Observe(log[..|log| - 1])
      case None => None
      case Some(m) => if Legal(m, log[|log| - 1]) then Some(Next(m, log[|log| - 1])) else None
  }

  lemma ObserveNote(log: seq<Event>, e: Event)
    ensures Observe(log + [e]) ==
            match Observe(log)
            case None => None
            case Some(m) => if Legal(m, e) then Some(Next(m, e)) else None
  {
    assert (log + [e])[..|log|] == log;
  }

  lemma ObserveEmpty()
    ensures Observe([]) == Some(IDLE)
  {
  }

  lemma ObserveLast(log: seq<Event>)
    requires log != [] && Observe(log).Some?
    ensures var before := Observe(log[..|log| - 1]);
            && before.Some? && Legal(before.value, log[|log| - 1])
            && Observe(log) == Some(Next(before.value, log[|log| - 1]))
  {
    hide Legal, Next;
  }

  // ----- what lawful histories have in common -----

  function CountCancels(log: seq<Event>, id: nat): nat {
    if log == [] then 0
    else CountCancels(log[..|log| - 1], id) + (if log[|log| - 1] == Cancelled(id) then 1 else 0)
  }

  function CountFinals(log: seq<Event>): nat {
    if log == [] then 0
    else CountFinals(log[..|log| - 1]) + (if log[|log| - 1].Final? then 1 else 0)
  }

  predicate IsOpen(m: Monitor, id: nat) {
    m.openJob.Some? && m.openJob.value.0 == id
  }

  /** Every request begun is completed, aborted or still pending, and no request has two final
      responses (a connection that ends before its first byte gets one 400 and no request). */
  predicate Balanced(m: Monitor) {
    && m.begun == m.completed + m.aborted + (if m.pending then 1 else 0)
    && (m.lease ==> m.pending)
    && |m.answers| <= Max(1, m.begun)
    && (!m.answered ==> |m.answers| < Max(1, m.begun))
    && (m.openJob.Some? ==> m.openJob.value.0 < m.jobs)
  }

  lemma BalancedCounting(m: Monitor, e: Event)
    requires Balanced(m) && Legal(m, e) && (e.Began? || e.Finished?)
    ensures Balanced(Next(m, e))
  {
  }

  lemma BalancedLeasing(m: Monitor, e: Event)
    requires Balanced(m) && Legal(m, e) && (e.Acquired? || e.Released? || e.Refused?)
    ensures Balanced(Next(m, e))
  {
  }

  lemma BalancedAnswering(m: Monitor, e: Event)
    requires Balanced(m) && Legal(m, e) && e.Final?
    ensures Balanced(Next(m, e))
  {
  }

  lemma BalancedJobs(m: Monitor, e: Event)
    requires Balanced(m) && Legal(m, e) && (e.Submitted? || e.Cancelled?)
    ensures Balanced(Next(m, e))
  {
  }

  lemma BalancedTransport(m: Monitor, e: Event)
    requires Balanced(m) && (e.Interim? || e.Flushed? || e.Draining? || e.Closed?)
    ensures Balanced(Next(m, e))
  {
  }

  lemma BalancedStep(m: Monitor, e: Event)
    requires Balanced(m) && Legal(m, e)
    ensures Balanced(Next(m, e))
  {
    hide Balanced, Legal, Next;
    match e {
      case Began(_) => BalancedCounting(m, e);
      case Finished(_, _, _, _) => BalancedCounting(m, e);
      case Final(_, _, _) => BalancedAnswering(m, e);
      case Submitted(_, _) => BalancedJobs(m, e);
      case Cancelled(_) => BalancedJobs(m, e);
      case Acquired => BalancedLeasing(m, e);
      case Released => BalancedLeasing(m, e);
      case Refused => BalancedLeasing(m, e);
      case _ => BalancedTransport(m, e);
    }
  }

  lemma AnswersStep(m: Monitor, e: Event)
    ensures Next(m, e).answers == if e.Final? then m.answers + [e.answered] else m.answers
  {
  }

  lemma {:induction false} LawfulHistory(log: seq<Event>)
    requires Observe(log).Some?
    ensures Balanced(Observe(log).value)
    ensures |Observe(log).value.answers| == CountFinals(log)
  {
    hide Observe, Legal, Next, WellFormed;
    if log == [] {
      ObserveEmpty();
    } else {
      ObserveLast(log);
      LawfulHistory(log[..|log| - 1]);
      var m := Observe(log[..|log| - 1]).value;
      BalancedStep(m, log[|log| - 1]);
      AnswersStep(m, log[|log| - 1]);
    }
  }

  /** 1 for an accepted job that is no longer open, else 0. */
  function Settled(m: Monitor, id: nat): nat {
    if id < m.jobs && !IsOpen(m, id) then 1 else 0
  }

  lemma SettledSubmit(m: Monitor, e: Event, id: nat)
    requires Legal(m, e) && e.Submitted?
    ensures Settled(Next(m, e), id) == Settled(m, id)
  {
  }

  lemma SettledCancel(m: Monitor, e: Event, id: nat)
    requires Balanced(m) && Legal(m, e) && e.Cancelled?
    ensures Settled(Next(m, e), id) == Settled(m, id) + (if e == Cancelled(id) then 1 else 0)
  {
  }

  /** The jobs and the start of the current request are as they were. */
  predicate SameRequest(m: Monitor, n: Monitor) {
    && n.jobs == m.jobs && n.openJob == m.openJob && n.doneJob == m.doneJob
    && n.begun == m.begun && n.beganAt == m.beganAt
  }

  lemma LeaseKeeps(m: Monitor, e: Event)
    requires e.Acquired? || e.Refused? || e.Released? || e.Finished?
    ensures SameRequest(m, Next(m, e))
  {
  }

  lemma ResponseKeeps(m: Monitor, e: Event)
    requires e.Interim? || e.Final? || e.Flushed?
    ensures SameRequest(m, Next(m, e))
  {
  }

  lemma EndKeeps(m: Monitor, e: Event)
    requires e.Draining? || e.Closed?
    ensures SameRequest(m, Next(m, e))
  {
  }

  lemma NextKeeps(m: Monitor, e: Event)
    requires !e.Began? && !e.Submitted? && !e.Cancelled?
    ensures SameRequest(m, Next(m, e))
  {
    hide Next, SameRequest;
    if e.Acquired? || e.Refused? || e.Released? || e.Finished? {
      LeaseKeeps(m, e);
    } else if e.Draining? || e.Closed? {
      EndKeeps(m, e);
    } else {
      ResponseKeeps(m, e);
    }
  }

  lemma BeganKeeps(m: Monitor, time: int)
    ensures var n := Next(m, Began(time));
            n.jobs == m.jobs && n.openJob == m.openJob
  {
  }

  lemma SettledStep(m: Monitor, e: Event, id: nat)
    requires Balanced(m) && Legal(m, e)
    ensures Settled(Next(m, e), id) == Settled(m, id) + (if e == Cancelled(id) then 1 else 0)
  {
    hide Balanced, Legal, Next;
    if e.Submitted? {
      SettledSubmit(m, e, id);
    } else if e.Cancelled? {
      SettledCancel(m, e, id);
    } else if e.Began? {
      BeganKeeps(m, e.time);
    } else {
      NextKeeps(m, e);
    }
  }

  /** Every accepted job has been cancelled exactly once, unless it is the one still open. */
  lemma {:induction false} CancelledOnce(log: seq<Event>, id: nat)
    requires Observe(log).Some?
    ensures CountCancels(log, id) == Settled(Observe(log).value, id)
  {
    hide Observe, Legal, Next, Balanced, WellFormed;
    if log == [] {
      ObserveEmpty();
    } else {
      ObserveLast(log);
      LawfulHistory(log[..|log| - 1]);
      CancelledOnce(log[..|log| - 1], id);
      SettledStep(Observe(log[..|log| - 1]).value, log[|log| - 1], id);
    }
  }

  /** What the final responses of a history answer, in order. */
  function Answers(log: seq<Event>): seq<Answered> {
    if log == [] then []
    else
      var before, e := Answers(log[..|log| - 1]), log[|log| - 1];
      if e.Final? then before + [e.answered] else before
  }

  lemma {:induction false} AnswersObserved(log: seq<Event>)
    requires Observe(log).Some?
    ensures Observe(log).value.answers == Answers(log)
  {
    hide Observe, Legal, Next, WellFormed;
    if log == [] {
      ObserveEmpty();
    } else {
      ObserveLast(log);
      AnswersObserved(log[..|log| - 1]);
      AnswersStep(Observe(log[..|log| - 1]).value, log[|log| - 1]);
    }
  }

  /** The job submitted for the request begun last, if any. */
  function LastSubmitted(log: seq<Event>): Option<(nat, Request)> {
    if log == [] then None
    else
      match log[|log| - 1]
      case Began(_) => None
      case Submitted(id, request) => Some((id, request))
      case _ => LastSubmitted(log[..|log| - 1])
  }

  function LastBegan(log: seq<Event>): Option<int> {
    if log == [] then None
    else
      match log[|log| - 1]
      case Began(time) => Some(time)
      case _ => LastBegan(log[..|log| - 1])
  }

  /** The monitor's jobs and start time are the latest of the history. */
  predicate UpToDate(m: Monitor, job: Option<(nat, Request)>, began: Option<int>) {
    && (m.openJob.Some? ==> m.openJob == job)
    && (m.doneJob.Some? && m.openJob.None? ==> m.doneJob == job)
    && (m.begun > 0 ==> began == Some(m.beganAt))
  }

  lemma UpToDateStep(m: Monitor, e: Event, job: Option<(nat, Request)>, began: Option<int>)
    requires Legal(m, e) && UpToDate(m, job, began)
    ensures UpToDate(Next(m, e),
                     match e case Began(_) => None case Submitted(id, request) => Some((id, request)) case _ => job,
                     match e case Began(time) => Some(time) case _ => began)
  {
    hide Legal, Next;
    match e {
      case Began(time) => UpToDateBegan(m, time);
      case Submitted(id, request) => UpToDateSubmitted(m, id, request);
      case Cancelled(id) => UpToDateCancelled(m, id);
      case _ => NextKeeps(m, e);
    }
  }

  lemma UpToDateBegan(m: Monitor, time: int)
    requires Legal(m, Began(time))
    ensures UpToDate(Next(m, Began(time)), None, Some(time))
  {
  }

  lemma UpToDateSubmitted(m: Monitor, id: nat, request: Request)
    ensures var n := Next(m, Submitted(id, request));
            n.openJob == Some((id, request)) && n.begun == m.begun && n.beganAt == m.beganAt
  {
  }

  lemma UpToDateCancelled(m: Monitor, id: nat)
    requires Legal(m, Cancelled(id))
    ensures var n := Next(m, Cancelled(id));
            n.openJob.None? && n.doneJob == m.openJob && m.openJob.Some? && n.begun == m.begun && n.beganAt == m.beganAt
  {
  }

  lemma {:induction false} LastObserved(log: seq<Event>)
    requires Observe(log).Some?
    ensures UpToDate(Observe(log).value, LastSubmitted(log), LastBegan(log))
  {
    hide Observe, Legal, Next, UpToDate, WellFormed;
    if log == [] {
      ObserveEmpty();
      assert UpToDate(IDLE, None, None) by { IdleUpToDate(); }
    } else {
      ObserveLast(log);
      var before := log[..|log| - 1];
      LastObserved(before);
      UpToDateStep(Observe(before).value, log[|log| - 1], LastSubmitted(before), LastBegan(before));
    }
  }

  lemma IdleUpToDate()
    ensures UpToDate(IDLE, None, None)
  {
  }

  lemma {:induction false} LawfulPrefix(log: seq<Event>, n: nat)
    requires Observe(log).Some? && n <= |log|
    ensures Observe(log[..n]).Some?
    decreases |log|
  {
    if n == |log| {
      assert log[..n] == log;
    } else {
      LawfulPrefix(log[..|log| - 1], n);
      assert log[..|log| - 1][..n] == log[..n];
    }
  }

  /** The result of a job only ever answers the request that submitted it: the response that
      carries it answers the request of the only submission since that request began. */
  lemma JobAnswersItsSubmitter(log: seq<Event>, i: nat)
    requires Observe(log).Some? && i < |log| && log[i].Final? && log[i].job.Some?
    ensures log[i].answered.Whole?
    ensures LastSubmitted(log[..i]) == Some((log[i].job.value, log[i].answered.request))
  {
    hide Observe, WellFormed;
    LawfulPrefix(log, i);
    LawfulPrefix(log, i + 1);
    ObserveLast(log[..i + 1]);
    LastObserved(log[..i]);
    assert log[..i + 1][..i] == log[..i];
  }
}
