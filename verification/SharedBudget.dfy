/**
 One resource budget shared by any number of sessions (`src/base/ResourceBudget.cpp`,
 `app/HttpConnectionHandler.cpp`).  A system trace is any interleaving of what the sessions do
 to the budget and to the shared counters, one mutex-protected operation at a time.
 */
module SharedBudget {
  import opened Basics
  import opened Session
  import opened SessionProtocol
  import opened SessionInvariant
  import opened SessionRuns

  const TRANSPORT_INPUT_BYTES := 16384
  const REQUEST_INPUT_BYTES := 1064960
  const MINIMUM_INPUT_BUDGET := 1081344

  // ----- the budget object -----

  datatype Amount = Amount(connections: nat, input: nat, output: nat)
  datatype Rejection = Fits | NoConnection | NoInput | NoOutput

  function Plus(a: Amount, b: Amount): Amount {
    Amount(a.connections + b.connections, a.input + b.input, a.output + b.output)
  }

  predicate Within(a: Amount, limit: Amount) {
    a.connections <= limit.connections && a.input <= limit.input && a.output <= limit.output
  }

  class ResourceBudget {
    const limits: Amount
    var current: Amount
    var peak: Amount
    var rejected: Amount

    predicate Valid()
      reads this
    {
      Within(current, peak) && Within(peak, limits)
    }

    constructor (limits: Amount)
      ensures Valid() && this.limits == limits && current == Amount(0, 0, 0)
    {
      this.limits := limits;
      current, peak, rejected := Amount(0, 0, 0), Amount(0, 0, 0), Amount(0, 0, 0);
    }

    /** Accepted exactly when everything asked for fits; a refusal takes nothing and is
        charged to the first domain that does not fit. */
    method TryAcquire(wanted: Amount) returns (outcome: Rejection)
      requires Valid()
      modifies this
      ensures Valid()
      ensures outcome == Fits <==> Within(Plus(old(current), wanted), limits)
      ensures outcome == Fits ==> current == Plus(old(current), wanted) && rejected == old(rejected)
      ensures outcome != Fits ==> current == old(current) && peak == old(peak)
      ensures outcome == NoConnection <==> old(current).connections + wanted.connections > limits.connections
      ensures outcome != Fits ==> rejected == Plus(old(rejected),
                Amount(if outcome == NoConnection then 1 else 0, if outcome == NoInput then 1 else 0,
                       if outcome == NoOutput then 1 else 0))
      ensures Within(old(peak), peak)
    {
      if wanted.connections > limits.connections - current.connections {
        rejected := Plus(rejected, Amount(1, 0, 0));
        return NoConnection;
      }
      if wanted.input > limits.input - current.input {
        rejected := Plus(rejected, Amount(0, 1, 0));
        return NoInput;
      }
      if wanted.output > limits.output - current.output {
        rejected := Plus(rejected, Amount(0, 0, 1));
        return NoOutput;
      }
      current := Plus(current, wanted);
      peak := Amount(Max(peak.connections, current.connections), Max(peak.input, current.input),
                     Max(peak.output, current.output));
      return Fits;
    }

    /** A lease gives back what it holds. */
    method Release(held: Amount)
      requires Valid() && Within(held, current)
      modifies this
      ensures Valid() && Plus(current, held) == old(current)
      ensures peak == old(peak) && rejected == old(rejected)
    {
      current := Amount(current.connections - held.connections, current.input - held.input,
                        current.output - held.output);
    }
  }

  // ----- interleavings of sessions -----

  datatype Op = Opened(id: nat) | Retired(id: nat) | Did(id: nat, event: Event)

  /** What one session did, in its own order. */
  function Projection(trace: seq<Op>, id: nat): seq<Event> {
    if trace == [] then []
    else
      var before, op := Projection(trace[..|trace| - 1], id), trace[|trace| - 1];
      if op.Did? && op.id == id then before + [op.event] else before
  }

  function Peers(trace: seq<Op>): set<nat> {
    set k | 0 <= k < |trace| :: trace[k].id
  }

  /** Every session keeps its protocol. */
  ghost predicate AllLawful(trace: seq<Op>) {
    forall id: nat :: Observe(Projection(trace, id)).Some?
  }

  ghost function MonitorOf(trace: seq<Op>, id: nat): Monitor
    requires AllLawful(trace)
  {
    Observe(Projection(trace, id)).value
  }

  ghost function Holders(trace: seq<Op>): set<nat>
    requires AllLawful(trace)
  {
    set id | id in Peers(trace) && MonitorOf(trace, id).lease
  }

  ghost function Pending(trace: seq<Op>): set<nat>
    requires AllLawful(trace)
  {
    set id | id in Peers(trace) && MonitorOf(trace, id).pending
  }

  /** Request bytes reserved in the shared budget. */
  function Reserved(trace: seq<Op>): int {
    if trace == [] then 0
    else
      var before, op := Reserved(trace[..|trace| - 1]), trace[|trace| - 1];
      if op.Did? && op.event.Acquired? then before + REQUEST_INPUT_BYTES
      else if op.Did? && op.event.Released? then before - REQUEST_INPUT_BYTES
      else before
  }

  datatype Counters = Counters(begun: nat, completed: nat, aborted: nat)

  function Counted(trace: seq<Op>): Counters {
    if trace == [] then Counters(0, 0, 0)
    else
      var c, op := Counted(trace[..|trace| - 1]), trace[|trace| - 1];
      if !op.Did? then c
      else
        match op.event
        case Began(_) => c.(begun := c.begun + 1)
        case Finished(aborted, _, _, _) =>
          if aborted then c.(aborted := c.aborted + 1) else c.(completed := c.completed + 1)
        case _ => c
  }

  lemma LawfulBefore(trace: seq<Op>)
    requires trace != [] && AllLawful(trace)
    ensures AllLawful(trace[..|trace| - 1])
  {
    var before, op := trace[..|trace| - 1], trace[|trace| - 1];
    forall id: nat
      ensures Observe(Projection(before, id)).Some?
    {
      assert Observe(Projection(trace, id)).Some?;
      if op.Did? && op.id == id {
        ObserveNote(Projection(before, id), op.event);
      }
    }
  }

  /** A set that one operation changed at one place only. */
  lemma CardinalityStep(before: set<nat>, after: set<nat>, id: nat)
    requires before - {id} == after - {id}
    ensures |after| == |before| + (if id in after then 1 else 0) - (if id in before then 1 else 0)
  {
    assert before == if id in before then (before - {id}) + {id} else before - {id};
    assert after == if id in after then (after - {id}) + {id} else after - {id};
  }

  /** One operation moves the monitor of its session and no other. */
  lemma OneSessionMoves(trace: seq<Op>)
    requires trace != [] && AllLawful(trace)
    ensures AllLawful(trace[..|trace| - 1])
    ensures var before, op := trace[..|trace| - 1], trace[|trace| - 1];
            && Peers(trace) == Peers(before) + {op.id}
            && (op.Did? ==>
                  && Legal(MonitorOf(before, op.id), op.event)
                  && MonitorOf(trace, op.id) == Next(MonitorOf(before, op.id), op.event))
            && (!op.Did? ==> MonitorOf(trace, op.id) == MonitorOf(before, op.id))
            && (forall id: nat :: id != op.id ==> MonitorOf(trace, id) == MonitorOf(before, id))
  {
    LawfulBefore(trace);
    hide Observe, Legal, Next;
    var before, op := trace[..|trace| - 1], trace[|trace| - 1];
    assert trace == before + [op];
    assert Peers(trace) == Peers(before) + {op.id} by {
      assert forall k :: 0 <= k < |before| ==> trace[k] == before[k];
      assert trace[|before|] == op;
    }
    if op.Did? {
      assert Observe(Projection(trace, op.id)).Some?;
      assert Projection(trace, op.id) == Projection(before, op.id) + [op.event];
      ObserveNote(Projection(before, op.id), op.event);
    }
  }

  lemma {:induction false} UnseenIsIdle(trace: seq<Op>, id: nat)
    requires AllLawful(trace) && id !in Peers(trace)
    ensures MonitorOf(trace, id) == IDLE
  {
    hide Legal, Next;
    assert Projection(trace, id) == [] by { UnseenProjection(trace, id); }
  }

  lemma {:induction false} UnseenProjection(trace: seq<Op>, id: nat)
    requires id !in Peers(trace)
    ensures Projection(trace, id) == []
  {
    if trace != [] {
      var before := trace[..|trace| - 1];
      assert trace[|trace| - 1].id in Peers(trace);
      assert forall k :: 0 <= k < |before| ==> before[k].id == trace[k].id && trace[k].id in Peers(trace);
      UnseenProjection(before, id);
    }
  }

  function Bit(b: bool): int {
    if b then 1 else 0
  }

  lemma MonitorMoves(m: Monitor, e: Event)
    requires Legal(m, e)
    ensures Bit(Next(m, e).lease) == Bit(m.lease) + Bit(e.Acquired?) - Bit(e.Released?)
    ensures Bit(Next(m, e).pending) == Bit(m.pending) + Bit(e.Began?) - Bit(e.Finished?)
  {
    hide FinalLegal;
    match e {
      case Began(_) =>
      case Acquired =>
      case Released =>
      case Finished(_, _, _, _) =>
      case _ =>
        assert Next(m, e).lease == m.lease && Next(m, e).pending == m.pending;
    }
  }

  /** How one operation changes the number of lease holders and of pending requests. */
  lemma CountsMove(trace: seq<Op>)
    requires trace != [] && AllLawful(trace)
    ensures AllLawful(trace[..|trace| - 1])
    ensures var before, op := trace[..|trace| - 1], trace[|trace| - 1];
            && |Holders(trace)| == |Holders(before)| +
                 (if op.Did? then Bit(op.event.Acquired?) - Bit(op.event.Released?) else 0)
            && |Pending(trace)| == |Pending(before)| +
                 (if op.Did? then Bit(op.event.Began?) - Bit(op.event.Finished?) else 0)
  {
    hide Observe, Legal, Next, Holders, Pending, MonitorOf;
    OneSessionMoves(trace);
    var before, op := trace[..|trace| - 1], trace[|trace| - 1];
    if op.id !in Peers(before) {
      UnseenIsIdle(before, op.id);
    }
    SetsMove(trace, op.id);
    CardinalityStep(Holders(before), Holders(trace), op.id);
    CardinalityStep(Pending(before), Pending(trace), op.id);
    if op.Did? {
      MonitorMoves(MonitorOf(before, op.id), op.event);
    }
  }

  /** For any number of sessions sharing one budget, after every operation of every
      interleaving: the request bytes reserved are 1040 KiB for each lease held, and the
      requests begun are those completed, aborted and pending. */
  lemma {:induction false} Conservation(trace: seq<Op>)
    requires AllLawful(trace)
    ensures Reserved(trace) == REQUEST_INPUT_BYTES * |Holders(trace)|
    ensures var c := Counted(trace); c.begun == c.completed + c.aborted + |Pending(trace)|
  {
    if trace == [] {
      assert Holders(trace) == {} && Pending(trace) == {};
    } else {
      hide Observe, Holders, Pending, AllLawful;
      CountsMove(trace);
      Conservation(trace[..|trace| - 1]);
    }
  }

  lemma SetsMove(trace: seq<Op>, id: nat)
    requires trace != [] && AllLawful(trace) && AllLawful(trace[..|trace| - 1]) && id == trace[|trace| - 1].id
    ensures var before := trace[..|trace| - 1];
            && Holders(before) - {id} == Holders(trace) - {id} && Pending(before) - {id} == Pending(trace) - {id}
            && (id in Holders(trace) <==> MonitorOf(trace, id).lease)
            && (id in Pending(trace) <==> MonitorOf(trace, id).pending)
            && (id in Holders(before) ==> MonitorOf(before, id).lease)
            && (id in Pending(before) ==> MonitorOf(before, id).pending)
            && (id in Peers(before) ==> (id in Holders(before) <==> MonitorOf(before, id).lease))
            && (id in Peers(before) ==> (id in Pending(before) <==> MonitorOf(before, id).pending))
  {
    hide Observe, Legal, Next;
    OneSessionMoves(trace);
  }

  // ----- the sessions of the program -----

  datatype Client = Client(world: World, inputs: seq<Input>)

  /** Every session has run some notifications to their end, in a world with a budget. */
  ghost predicate Quiescent(trace: seq<Op>, clients: map<nat, Client>) {
    && Peers(trace) <= clients.Keys
    && forall id: nat :: id in clients ==>
         clients[id].world.budgeted && Projection(trace, id) == Run(clients[id].world, clients[id].inputs).hist.log
  }

  lemma QuiescentLawful(trace: seq<Op>, clients: map<nat, Client>)
    requires Quiescent(trace, clients)
    ensures AllLawful(trace)
  {
    forall id: nat
      ensures Observe(Projection(trace, id)).Some?
    {
      if id in clients {
        Accounting(clients[id].world, clients[id].inputs);
      } else {
        UnseenProjection(trace, id);
      }
    }
  }

  /** Between notifications the reservation is exact: 1040 KiB for each session with a pending
      request and nothing else. */
  lemma ReservationIsPendingRequests(trace: seq<Op>, clients: map<nat, Client>)
    requires Quiescent(trace, clients)
    ensures AllLawful(trace)
    ensures Reserved(trace) == REQUEST_INPUT_BYTES * |Pending(trace)|
  {
    QuiescentLawful(trace, clients);
    Conservation(trace);
    forall id | id in Peers(trace)
      ensures MonitorOf(trace, id).lease == MonitorOf(trace, id).pending
    {
      LeaseWhilePending(clients[id].world, clients[id].inputs);
    }
    assert Holders(trace) == Pending(trace);
  }

  lemma LeaseWhilePending(w: World, inputs: seq<Input>)
    requires w.budgeted
    ensures var log := Run(w, inputs).hist.log;
            Observe(log).Some? && Observe(log).value.lease == Observe(log).value.pending
  {
    hide Observe, Run;
    var s := Run(w, inputs);
    assert Good(w, s) && LeaseOk(w, s);
  }

  /** After every session is destroyed the account is balanced. */
  lemma BalancedAtTheEnd(trace: seq<Op>, clients: map<nat, Client>)
    requires Quiescent(trace, clients)
    requires forall id: nat :: id in clients ==> Run(clients[id].world, clients[id].inputs).conn.destroyed
    ensures Reserved(trace) == 0
    ensures var c := Counted(trace); c.begun == c.completed + c.aborted
  {
    ReservationIsPendingRequests(trace, clients);
    Conservation(trace);
    forall id | id in Peers(trace)
      ensures !MonitorOf(trace, id).pending
    {
      DestroyedNotPending(clients[id].world, clients[id].inputs);
    }
    assert Pending(trace) == {};
  }

  lemma DestroyedNotPending(w: World, inputs: seq<Input>)
    requires Run(w, inputs).conn.destroyed
    ensures var log := Run(w, inputs).hist.log; Observe(log).Some? && !Observe(log).value.pending
  {
    hide Observe, Run;
    var s := Run(w, inputs);
    assert Good(w, s) && Gone(s);
  }

  // ----- one budget under every interleaving -----

  /** What connections and sessions ask of the server: to be accepted, to go, to reserve a request, or
      to record any other event of a session. */
  datatype Move = Connect(id: nat) | Depart(id: nat) | Ask(id: nat) | Act(id: nat, event: Event)

  /** The connections that hold a transport window. */
  function OpenIds(trace: seq<Op>): set<nat> {
    if trace == [] then {}
    else
      var before, op := OpenIds(trace[..|trace| - 1]), trace[|trace| - 1];
      match op
      case Opened(id) => before + {id}
      case Retired(id) => before - {id}
      case Did(_, _) => before
  }

  /** What the budget must hold: a window for each open connection and 1040 KiB for each lease. */
  ghost function InUse(trace: seq<Op>): Amount
    requires AllLawful(trace)
  {
    Amount(|OpenIds(trace)|, TRANSPORT_INPUT_BYTES * |OpenIds(trace)| + REQUEST_INPUT_BYTES * |Holders(trace)|, 0)
  }

  const WINDOW := Amount(1, TRANSPORT_INPUT_BYTES, 0)
  const REQUEST := Amount(0, REQUEST_INPUT_BYTES, 0)

  ghost predicate Room(limits: Amount, trace: seq<Op>, wanted: Amount)
    requires AllLawful(trace)
  {
    Within(Plus(InUse(trace), wanted), limits)
  }

  /** A connection is new, one that goes has no lease left, and a session does what its protocol allows;
      whether a reservation succeeds is not for the session to say. */
  ghost predicate Possible(trace: seq<Op>, m: Move)
    requires AllLawful(trace)
  {
    match m
    case Connect(id) => id !in Peers(trace)
    case Depart(id) => id in OpenIds(trace) && !MonitorOf(trace, id).lease
    case Ask(id) => id in OpenIds(trace) && Legal(MonitorOf(trace, id), Acquired)
    case Act(id, event) =>
      id in OpenIds(trace) && Legal(MonitorOf(trace, id), event) && !event.Acquired? && !event.Refused?
  }

  /** What a move adds to the trace; a connection that is turned away leaves none. */
  ghost function Recorded(limits: Amount, trace: seq<Op>, m: Move): Option<Op>
    requires AllLawful(trace)
  {
    match m
    case Connect(id) => if Room(limits, trace, WINDOW) then Some(Opened(id)) else None
    case Depart(id) => Some(Retired(id))
    case Ask(id) => Some(Did(id, if Room(limits, trace, REQUEST) then Acquired else Refused))
    case Act(id, event) => Some(Did(id, event))
  }

  ghost function Performed(limits: Amount, trace: seq<Op>, m: Move): seq<Op>
    requires AllLawful(trace)
  {
    if Recorded(limits, trace, m).None? then trace else trace + [Recorded(limits, trace, m).value]
  }

  /** Leases belong to open connections, and everything fits. */
  ghost predicate WithinLimits(limits: Amount, trace: seq<Op>) {
    && AllLawful(trace)
    && Holders(trace) <= OpenIds(trace) <= Peers(trace)
    && Within(InUse(trace), limits)
  }

  lemma {:induction false} OpenIdsSeen(trace: seq<Op>)
    ensures OpenIds(trace) <= Peers(trace)
  {
    if trace != [] {
      var before := trace[..|trace| - 1];
      OpenIdsSeen(before);
      assert forall k :: 0 <= k < |before| ==> before[k].id == trace[k].id && trace[k].id in Peers(trace);
      assert trace[|trace| - 1].id in Peers(trace);
    }
  }

  lemma LawfulAppend(trace: seq<Op>, op: Op)
    requires AllLawful(trace) && (op.Did? ==> Legal(MonitorOf(trace, op.id), op.event))
    ensures AllLawful(trace + [op])
  {
    hide Legal, Next;
    var all := trace + [op];
    assert all[..|trace|] == trace;
    forall id: nat
      ensures Observe(Projection(all, id)).Some?
    {
      assert Observe(Projection(trace, id)).Some?;
      if op.Did? && op.id == id {
        assert Projection(all, id) == Projection(trace, id) + [op.event];
        hide Observe;
        ObserveNote(Projection(trace, id), op.event);
      } else {
        assert Projection(all, id) == Projection(trace, id);
      }
    }
  }

  lemma RefusedIsLegal(m: Monitor)
    requires Legal(m, Acquired)
    ensures Legal(m, Refused)
  {
  }

  /** How one operation moves the open connections and the leases. */
  lemma UseMoves(trace: seq<Op>, op: Op)
    requires AllLawful(trace) && AllLawful(trace + [op]) && (op.Opened? ==> op.id !in Peers(trace))
    requires op.Retired? ==> op.id in OpenIds(trace)
    ensures OpenIds(trace) <= Peers(trace)
    ensures OpenIds(trace + [op]) ==
            if op.Opened? then OpenIds(trace) + {op.id} else
            if op.Retired? then OpenIds(trace) - {op.id} else OpenIds(trace)
    ensures |OpenIds(trace + [op])| == |OpenIds(trace)| + Bit(op.Opened?) - Bit(op.Retired?)
    ensures |Holders(trace + [op])| == |Holders(trace)| +
            (if op.Did? then Bit(op.event.Acquired?) - Bit(op.event.Released?) else 0)
    ensures Holders(trace) - {op.id} == Holders(trace + [op]) - {op.id}
    ensures op.id in Holders(trace + [op]) <==> MonitorOf(trace + [op], op.id).lease
  {
    hide Observe, Legal, Next, Holders, Pending, AllLawful, MonitorOf;
    var all := trace + [op];
    assert all[..|all| - 1] == trace;
    OpenIdsSeen(trace);
    CountsMove(all);
    SetsMove(all, op.id);
  }

  lemma LeaseAfter(trace: seq<Op>, op: Op)
    requires AllLawful(trace) && AllLawful(trace + [op])
    ensures MonitorOf(trace + [op], op.id).lease ==> MonitorOf(trace, op.id).lease || (op.Did? && op.event.Acquired?)
  {
    hide Observe, Legal, Next, MonitorOf, AllLawful;
    var all := trace + [op];
    assert all[..|all| - 1] == trace;
    OneSessionMoves(all);
    if op.Did? {
      MonitorMoves(MonitorOf(trace, op.id), op.event);
    }
  }

  lemma HolderIsLeased(trace: seq<Op>, id: nat)
    requires AllLawful(trace)
    ensures id in Holders(trace) ==> MonitorOf(trace, id).lease
    ensures MonitorOf(trace, id).lease && id in Peers(trace) ==> id in Holders(trace)
  {
    hide Observe;
  }

  /** What an operation of the trace takes from the budget or gives back. */
  predicate Takes(op: Op, a: Amount) {
    (op.Opened? && a == WINDOW) || (op.Did? && op.event.Acquired? && a == REQUEST)
  }

  predicate Returns(op: Op, a: Amount) {
    (op.Retired? && a == WINDOW) || (op.Did? && op.event.Released? && a == REQUEST)
  }

  /** An operation that can follow: new connections, open ones, lawful events. */
  ghost predicate Follows(trace: seq<Op>, op: Op)
    requires AllLawful(trace)
  {
    && (op.Opened? ==> op.id !in Peers(trace))
    && (!op.Opened? ==> op.id in OpenIds(trace))
    && (op.Retired? ==> !MonitorOf(trace, op.id).lease)
    && (op.Did? ==> Legal(MonitorOf(trace, op.id), op.event))
  }

  lemma UseChanges(trace: seq<Op>, op: Op)
    requires AllLawful(trace) && Follows(trace, op) && AllLawful(trace + [op])
    ensures Takes(op, WINDOW) ==> InUse(trace + [op]) == Plus(InUse(trace), WINDOW)
    ensures Takes(op, REQUEST) ==> InUse(trace + [op]) == Plus(InUse(trace), REQUEST)
    ensures Returns(op, WINDOW) ==> Plus(InUse(trace + [op]), WINDOW) == InUse(trace)
    ensures Returns(op, REQUEST) ==> Plus(InUse(trace + [op]), REQUEST) == InUse(trace)
    ensures op.Did? && !op.event.Acquired? && !op.event.Released? ==> InUse(trace + [op]) == InUse(trace)
  {
    hide Observe, Legal, Next, Holders, OpenIds, MonitorOf, AllLawful;
    UseMoves(trace, op);
  }

  lemma HoldersAreOpen(trace: seq<Op>, op: Op)
    requires AllLawful(trace) && Follows(trace, op) && AllLawful(trace + [op]) && Holders(trace) <= OpenIds(trace)
    ensures Holders(trace + [op]) <= OpenIds(trace + [op])
  {
    hide Observe, Legal, Next, Holders, OpenIds, MonitorOf, AllLawful;
    UseMoves(trace, op);
    LeaseAfter(trace, op);
    HolderIsLeased(trace, op.id);
    forall id | id in Holders(trace + [op])
      ensures id in OpenIds(trace + [op])
    {
      if id != op.id {
        assert id in Holders(trace + [op]) - {op.id};
      } else if MonitorOf(trace, op.id).lease && op.id in Peers(trace) {
        assert op.id in Holders(trace);
      } else {
        LeasedIsSeen(trace, op.id);
      }
    }
  }

  lemma LeasedIsSeen(trace: seq<Op>, id: nat)
    requires AllLawful(trace)
    ensures MonitorOf(trace, id).lease ==> id in Peers(trace)
  {
    hide Observe, Legal, Next;
    if id !in Peers(trace) {
      UnseenIsIdle(trace, id);
    }
  }

  /** A possible move records an operation that can follow, and one that takes from the budget fits. */
  lemma RecordedFollows(limits: Amount, trace: seq<Op>, m: Move)
    requires AllLawful(trace) && Possible(trace, m) && Recorded(limits, trace, m).Some?
    ensures var op := Recorded(limits, trace, m).value;
            && Follows(trace, op)
            && (Takes(op, WINDOW) ==> Room(limits, trace, WINDOW)) &&
               (Takes(op, REQUEST) ==> Room(limits, trace, REQUEST))
  {
    hide Observe, Next, Holders, OpenIds, MonitorOf, AllLawful, InUse;
    if m.Ask? {
      RefusedIsLegal(MonitorOf(trace, m.id));
    }
    hide Legal;
  }

  lemma FollowsKeeps(limits: Amount, trace: seq<Op>, op: Op)
    requires WithinLimits(limits, trace) && Follows(trace, op)
    requires Takes(op, WINDOW) ==> Room(limits, trace, WINDOW)
    requires Takes(op, REQUEST) ==> Room(limits, trace, REQUEST)
    ensures WithinLimits(limits, trace + [op])
  {
    hide Observe, Legal, Next, Holders, OpenIds, MonitorOf, AllLawful, InUse, Peers;
    assert op.Did? ==> Legal(MonitorOf(trace, op.id), op.event);
    LawfulAppend(trace, op);
    UseChanges(trace, op);
    HoldersAreOpen(trace, op);
    OpenIdsSeen(trace + [op]);
  }

  /** Each move keeps the protocol, the ownership of leases and the limits, whatever the budget says. */
  lemma PerformedKeeps(limits: Amount, trace: seq<Op>, m: Move)
    requires WithinLimits(limits, trace) && Possible(trace, m)
    ensures WithinLimits(limits, Performed(limits, trace, m))
  {
    hide WithinLimits, Possible, Follows, Takes, Recorded;
    assert AllLawful(trace) by { LimitsLawful(limits, trace); }
    if Recorded(limits, trace, m).Some? {
      RecordedFollows(limits, trace, m);
      FollowsKeeps(limits, trace, Recorded(limits, trace, m).value);
    }
  }

  lemma LimitsLawful(limits: Amount, trace: seq<Op>)
    requires WithinLimits(limits, trace)
    ensures AllLawful(trace)
  {
  }

  /** The trace of any list of moves; one that is not possible changes nothing. */
  ghost function Served(limits: Amount, moves: seq<Move>): (trace: seq<Op>)
    ensures WithinLimits(limits, trace)
  {
    if moves == [] then
      NothingServed(limits);
      []
    else
      var trace, m := Served(limits, moves[..|moves| - 1]), moves[|moves| - 1];
      if Possible(trace, m) then
        PerformedKeeps(limits, trace, m);
        Performed(limits, trace, m)
      else trace
  }

  lemma NothingServed(limits: Amount)
    ensures WithinLimits(limits, [])
  {
    assert Holders([]) == {};
  }

  /** The server's side: one budget object, asked and repaid as its connections and sessions come and go. */
  class Accountant {
    const budget: ResourceBudget
    ghost var trace: seq<Op>

    /** The object holds exactly what the trace says is in use. */
    ghost predicate Valid()
      reads this, budget
    {
      budget.Valid() && WithinLimits(budget.limits, trace) && budget.current == InUse(trace)
    }

    constructor (limits: Amount)
      ensures Valid() && fresh(budget) && budget.limits == limits && trace == []
    {
      budget := new ResourceBudget(limits);
      trace := [];
      new;
      NothingServed(limits);
      assert Holders([]) == {};
    }

    /** Every outcome is the one of the budget, and every release is one the budget permits. */
    method Perform(m: Move) returns (granted: bool)
      requires Valid() && Possible(trace, m)
      modifies this, budget
      ensures Valid() && trace == Performed(budget.limits, old(trace), m)
      ensures m.Connect? ==> (granted <==> Room(budget.limits, old(trace), WINDOW))
      ensures m.Ask? ==> (granted <==> Room(budget.limits, old(trace), REQUEST))
    {
      hide Observe, Legal, Next, Holders, OpenIds, MonitorOf, AllLawful, InUse, Peers, Possible, WithinLimits, Follows;
      granted := true;
      LimitsLawful(budget.limits, trace);
      PerformedKeeps(budget.limits, trace, m);
      LimitsLawful(budget.limits, Performed(budget.limits, trace, m));
      if Recorded(budget.limits, trace, m).Some? {
        RecordedFollows(budget.limits, trace, m);
        UseChanges(trace, Recorded(budget.limits, trace, m).value);
      }
      ghost var after := Performed(budget.limits, trace, m);
      match m {
        case Connect(id) =>
          var outcome := budget.TryAcquire(WINDOW);
          granted := outcome == Fits;
        case Depart(id) =>
          budget.Release(WINDOW);
        case Ask(id) =>
          var outcome := budget.TryAcquire(REQUEST);
          granted := outcome == Fits;
        case Act(id, event) =>
          if event.Released? {
            budget.Release(REQUEST);
          } else {
            ActsNeverAsk(trace, id, event);
          }
      }
      trace := after;
    }
  }

  ghost predicate AllPossible(limits: Amount, moves: seq<Move>) {
    forall k :: 0 <= k < |moves| ==> Possible(Served(limits, moves[..k]), moves[k])
  }

  lemma ServedNext(limits: Amount, moves: seq<Move>, k: nat)
    requires AllPossible(limits, moves) && k < |moves|
    ensures Possible(Served(limits, moves[..k]), moves[k])
    ensures Served(limits, moves[..k + 1]) == Performed(limits, Served(limits, moves[..k]), moves[k])
  {
    hide Possible, Performed, WithinLimits;
    assert moves[..k + 1][..k] == moves[..k];
  }

  /** One budget object, driven through any interleaving, holds what the theorems below say is in use. */
  method Operate(limits: Amount, moves: seq<Move>) returns (accountant: Accountant)
    requires AllPossible(limits, moves)
    ensures fresh(accountant) && accountant.budget.limits == limits
    ensures accountant.trace == Served(limits, moves) && accountant.budget.current == InUse(Served(limits, moves))
  {
    hide Possible, InUse, WithinLimits, Performed, AllPossible, Served, AllLawful;
    accountant := new Accountant(limits);
    assert Served(limits, []) == [] by { ServedNothing(limits); }
    for k := 0 to |moves|
      invariant fresh(accountant) && fresh(accountant.budget)
      invariant accountant.Valid() && accountant.budget.limits == limits &&
                accountant.trace == Served(limits, moves[..k])
    {
      ServedNext(limits, moves, k);
      LimitsLawful(limits, accountant.trace);
      var granted := accountant.Perform(moves[k]);
    }
    assert moves[..|moves|] == moves;
  }

  lemma ServedNothing(limits: Amount)
    ensures Served(limits, []) == []
  {
  }

  lemma ActsNeverAsk(trace: seq<Op>, id: nat, event: Event)
    requires AllLawful(trace) && Possible(trace, Act(id, event))
    ensures !event.Acquired?
  {
    hide Legal, Observe;
  }

  // ----- the sessions of the program, answered by the budget -----

  /** Each session acts while its connection is open, has got some way through the notifications of its
      client, and gives up its window when it is destroyed. */
  ghost predicate Sessions(trace: seq<Op>, clients: map<nat, Client>) {
    && Peers(trace) <= clients.Keys
    && (forall id: nat :: id in clients ==> Projection(trace, id) <= LogOf(clients[id]))
    && (forall k :: 0 <= k < |trace| ==> InTurn(trace[..k], trace[k], clients))
  }

  ghost function LogOf(client: Client): seq<Event> {
    Run(client.world, client.inputs).hist.log
  }

  ghost predicate InTurn(before: seq<Op>, op: Op, clients: map<nat, Client>) {
    match op
    case Opened(id) => id !in Peers(before)
    case Did(id, _) => id in OpenIds(before)
    case Retired(id) =>
      && id in OpenIds(before) && id in clients && Projection(before, id) == LogOf(clients[id])
      && Run(clients[id].world, clients[id].inputs).conn.destroyed
  }

  /** Connections are accepted, and requests granted or refused, as the budget says at that moment. */
  ghost predicate Answered(limits: Amount, trace: seq<Op>)
    requires AllLawful(trace)
  {
    forall k :: 0 <= k < |trace| ==> LawfulUpTo(trace, k) && BudgetSays(limits, trace[..k], trace[k])
  }

  ghost predicate LawfulUpTo(trace: seq<Op>, k: nat)
    requires k <= |trace|
  {
    AllLawful(trace[..k])
  }

  ghost predicate BudgetSays(limits: Amount, before: seq<Op>, op: Op)
    requires AllLawful(before)
  {
    && (op.Opened? ==> Room(limits, before, WINDOW))
    && (op.Did? && op.event.Acquired? ==> Room(limits, before, REQUEST))
    && (op.Did? && op.event.Refused? ==> !Room(limits, before, REQUEST))
  }

  function MoveOf(op: Op): Move {
    match op
    case Opened(id) => Connect(id)
    case Retired(id) => Depart(id)
    case Did(id, event) => if event.Acquired? || event.Refused? then Ask(id) else Act(id, event)
  }

  function MovesOf(trace: seq<Op>): seq<Move> {
    if trace == [] then [] else MovesOf(trace[..|trace| - 1]) + [MoveOf(trace[|trace| - 1])]
  }

  lemma {:induction false} PrefixIsLawful(log: seq<Event>, n: nat)
    requires n <= |log| && Observe(log).Some?
    ensures Observe(log[..n]).Some?
    decreases |log|
  {
    if n == |log| {
      assert log[..n] == log;
    } else {
      ObserveLast(log);
      PrefixIsLawful(log[..|log| - 1], n);
      assert log[..|log| - 1][..n] == log[..n];
    }
  }

  /** Sessions under way are lawful too. */
  lemma SessionsLawful(trace: seq<Op>, clients: map<nat, Client>)
    requires Sessions(trace, clients)
    ensures AllLawful(trace)
  {
    hide Observe, InTurn, LogOf, Projection, Peers;
    forall id: nat
      ensures Observe(Projection(trace, id)).Some?
    {
      if id in clients {
        PartIsLawful(clients[id], Projection(trace, id));
      } else {
        UnseenProjection(trace, id);
        ObserveEmpty();
      }
    }
  }

  lemma PartIsLawful(client: Client, part: seq<Event>)
    requires part <= LogOf(client)
    ensures Observe(part).Some?
  {
    hide Observe, Run;
    var log := LogOf(client);
    Accounting(client.world, client.inputs);
    PrefixIsLawful(log, |part|);
    assert log[..|part|] == part;
  }

  lemma SessionsBefore(trace: seq<Op>, clients: map<nat, Client>)
    requires trace != [] && Sessions(trace, clients)
    ensures Sessions(trace[..|trace| - 1], clients)
  {
    hide InTurn, LogOf, OpenIds;
    var before := trace[..|trace| - 1];
    assert forall k :: 0 <= k < |before| ==> before[k] == trace[k] && before[..k] == trace[..k];
    forall id: nat | id in clients
      ensures Projection(before, id) <= LogOf(clients[id])
    {
      assert Projection(before, id) <= Projection(trace, id);
    }
  }

  lemma AnsweredBefore(limits: Amount, trace: seq<Op>)
    requires trace != [] && AllLawful(trace) && AllLawful(trace[..|trace| - 1]) && Answered(limits, trace)
    ensures Answered(limits, trace[..|trace| - 1])
  {
    hide AllLawful, BudgetSays;
    var before := trace[..|trace| - 1];
    forall k | 0 <= k < |before|
      ensures LawfulUpTo(before, k) && BudgetSays(limits, before[..k], before[k])
    {
      assert before[k] == trace[k] && before[..k] == trace[..k];
      assert LawfulUpTo(trace, k);
    }
  }

  /** A destroyed session has given its lease back. */
  lemma DestroyedNotLeased(w: World, inputs: seq<Input>)
    requires Run(w, inputs).conn.destroyed
    ensures var log := Run(w, inputs).hist.log; Observe(log).Some? && !Observe(log).value.lease
  {
    hide Observe, Run;
    var s := Run(w, inputs);
    assert Good(w, s) && Gone(s) && LeaseOk(w, s);
  }

  lemma AcquiredIsLegal(m: Monitor)
    requires Legal(m, Refused)
    ensures Legal(m, Acquired)
  {
  }

  lemma InTurnIsPossible(before: seq<Op>, op: Op, clients: map<nat, Client>)
    requires AllLawful(before) && InTurn(before, op, clients)
    requires op.Did? ==> Legal(MonitorOf(before, op.id), op.event)
    ensures Possible(before, MoveOf(op))
  {
    hide Observe, Next, OpenIds, AllLawful, Run;
    match op {
      case Opened(id) =>
      case Retired(id) =>
        DestroyedNotLeased(clients[id].world, clients[id].inputs);
      case Did(id, event) =>
        if event.Refused? {
          AcquiredIsLegal(MonitorOf(before, id));
        }
    }
    hide Legal;
  }

  lemma AnsweredIsPerformed(limits: Amount, before: seq<Op>, op: Op)
    requires AllLawful(before) && BudgetSays(limits, before, op)
    ensures Performed(limits, before, MoveOf(op)) == before + [op]
  {
    hide AllLawful, Room;
  }

  /** However the sessions of the program interleave, if their connections and requests are answered by the
      budget then what they do is a list of possible moves: the theorems below are about them. */
  lemma {:induction false} InterleavingIsServed(limits: Amount, trace: seq<Op>, clients: map<nat, Client>)
    requires Sessions(trace, clients)
    requires AllLawful(trace) && Answered(limits, trace)
    ensures AllPossible(limits, MovesOf(trace)) && Served(limits, MovesOf(trace)) == trace
  {
    hide AllLawful, Observe, Legal, Sessions, Possible, Performed, WithinLimits, Peers, OpenIds, InTurn, BudgetSays;
    if trace != [] {
      var n := |trace| - 1;
      var before, op := trace[..n], trace[n];
      SessionsBefore(trace, clients);
      SessionsLawful(before, clients);
      AnsweredBefore(limits, trace);
      InterleavingIsServed(limits, before, clients);
      LastStepIsPossible(trace, clients);
      assert BudgetSays(limits, trace[..n], trace[n]);
      AnsweredIsPerformed(limits, before, op);
      ServedStep(limits, MovesOf(before), MoveOf(op));
    }
  }

  lemma LastStepIsPossible(trace: seq<Op>, clients: map<nat, Client>)
    requires trace != [] && Sessions(trace, clients) && AllLawful(trace) && AllLawful(trace[..|trace| - 1])
    ensures Possible(trace[..|trace| - 1], MoveOf(trace[|trace| - 1]))
  {
    hide AllLawful, Observe, Legal, Possible, Peers, OpenIds, InTurn, MonitorOf, Next;
    var n := |trace| - 1;
    assert InTurn(trace[..n], trace[n], clients);
    OneSessionMoves(trace);
    InTurnIsPossible(trace[..n], trace[n], clients);
  }

  lemma ServedStep(limits: Amount, moves: seq<Move>, m: Move)
    requires AllPossible(limits, moves) && Possible(Served(limits, moves), m)
    ensures AllPossible(limits, moves + [m])
    ensures Served(limits, moves + [m]) == Performed(limits, Served(limits, moves), m)
  {
    hide Possible, Performed, AllLawful, InUse, OpenIds, Holders;
    var all := moves + [m];
    assert all[..|moves|] == moves;
    forall k | 0 <= k < |all|
      ensures Possible(Served(limits, all[..k]), all[k])
    {
      if k < |moves| {
        assert all[..k] == moves[..k] && all[k] == moves[k];
      }
    }
  }

  // ----- what the limits give -----

  /** In every reachable state the budget is kept: no more connections than allowed, and no more input than
      the limit, of which every open connection has its window and every lease 1040 KiB. */
  lemma NeverOverLimit(limits: Amount, moves: seq<Move>)
    ensures var trace := Served(limits, moves);
            && |OpenIds(trace)| <= limits.connections
            && TRANSPORT_INPUT_BYTES * |OpenIds(trace)| + Reserved(trace) <= limits.input
            && Holders(trace) <= OpenIds(trace)
  {
    hide Observe, Holders, AllLawful;
    Conservation(Served(limits, moves));
  }

  /** So it is for every interleaving of sessions of the program that the budget answers. */
  lemma SessionsKeepTheLimits(limits: Amount, trace: seq<Op>, clients: map<nat, Client>)
    requires Sessions(trace, clients)
    requires AllLawful(trace) && Answered(limits, trace)
    ensures |OpenIds(trace)| <= limits.connections
    ensures TRANSPORT_INPUT_BYTES * |OpenIds(trace)| + Reserved(trace) <= limits.input
    ensures Holders(trace) <= OpenIds(trace)
  {
    hide Observe, Holders, AllLawful, Sessions, Answered, Served, OpenIds;
    InterleavingIsServed(limits, trace, clients);
    NeverOverLimit(limits, MovesOf(trace));
  }

  /** In every reachable state a session that asks gets its request bytes if and only if they fit beside the
      windows of all open connections and the leases held. */
  lemma AskGrantedIff(limits: Amount, moves: seq<Move>, id: nat)
    requires Possible(Served(limits, moves), Ask(id))
    ensures var before, after := Served(limits, moves), Served(limits, moves + [Ask(id)]);
            var fits :=
              TRANSPORT_INPUT_BYTES * |OpenIds(before)| + REQUEST_INPUT_BYTES * (|Holders(before)| + 1) <= limits.input;
            after == before + [Did(id, if fits then Acquired else Refused)]
  {
    hide Observe, Legal, Holders, MonitorOf, AllLawful;
    assert (moves + [Ask(id)])[..|moves|] == moves;
  }

  /** In every reachable state a sole connection that asks is granted its request if and only if the input
      budget is at least the minimum the configuration accepts. */
  lemma MinimumBudgetAdmitsOne(limits: Amount, moves: seq<Move>, id: nat)
    requires Possible(Served(limits, moves), Ask(id)) && OpenIds(Served(limits, moves)) == {id}
    ensures Served(limits, moves + [Ask(id)]) ==
            Served(limits, moves) + [Did(id, if limits.input >= MINIMUM_INPUT_BUDGET then Acquired else Refused)]
  {
    hide Observe, Legal, Holders, AllLawful;
    AskGrantedIff(limits, moves, id);
    var trace := Served(limits, moves);
    HolderIsLeased(trace, id);
    AskerHoldsNothing(MonitorOf(trace, id));
    assert Holders(trace) == {};
  }

  lemma AskerHoldsNothing(m: Monitor)
    requires Legal(m, Acquired)
    ensures !m.lease
  {
  }

  /** In every reachable state a new connection is accepted if and only if a slot is free and its window fits. */
  lemma ConnectGrantedIff(limits: Amount, moves: seq<Move>, id: nat)
    requires Possible(Served(limits, moves), Connect(id))
    ensures var before, after := Served(limits, moves), Served(limits, moves + [Connect(id)]);
            var fits := |OpenIds(before)| < limits.connections &&
                        TRANSPORT_INPUT_BYTES * (|OpenIds(before)| + 1) +
                        REQUEST_INPUT_BYTES * |Holders(before)| <= limits.input;
            after == if fits then before + [Opened(id)] else before
  {
    hide Observe, Legal, Holders, MonitorOf, AllLawful, Peers, OpenIds;
    assert (moves + [Connect(id)])[..|moves|] == moves;
  }

  /** With that minimum and room for one connection, a server without connections accepts the next one. */
  lemma EmptyServerAccepts(limits: Amount, moves: seq<Move>, id: nat)
    requires limits.connections >= 1 && limits.input >= MINIMUM_INPUT_BUDGET
    requires OpenIds(Served(limits, moves)) == {} && Possible(Served(limits, moves), Connect(id))
    ensures Served(limits, moves + [Connect(id)]) == Served(limits, moves) + [Opened(id)]
  {
    hide Observe, Holders, AllLawful, Peers, Possible, InUse, OpenIds;
    ConnectGrantedIff(limits, moves, id);
    var trace := Served(limits, moves);
    hide Served;
    assert Holders(trace) == {};
  }

  /** With the default 64 MiB and all 128 connections open, a session that asks is granted its request if and
      only if fewer than 61 are active; so never more than 61 are. */
  lemma DefaultBudgetActiveRequests(moves: seq<Move>, id: nat)
    requires var trace := Served(DEFAULT_LIMITS, moves); |OpenIds(trace)| == 128 && Possible(trace, Ask(id))
    ensures var trace := Served(DEFAULT_LIMITS, moves);
            && |Holders(trace)| <= 61
            && Served(DEFAULT_LIMITS, moves + [Ask(id)]) ==
                 trace + [Did(id, if |Holders(trace)| < 61 then Acquired else Refused)]
  {
    hide Observe, Legal, Holders, MonitorOf, AllLawful;
    AskGrantedIff(DEFAULT_LIMITS, moves, id);
  }

  const DEFAULT_LIMITS := Amount(128, 67108864, 67108864)
}
