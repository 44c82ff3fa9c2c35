/**
 Start, stop and failure of the management thread (`app/ManagementServer.cpp`).

 Two threads share one mutex: the caller of `start` and the management thread, and any number
 of further callers may ask for a stop.  Locks are taken and released in separate steps and the
 holder is part of the state, so a thread that tried to lock a mutex it holds would be visible.
 A run is any list of moves; a move that is not enabled changes nothing, so quantifying over
 lists of moves quantifies over all interleavings.
 */
module Management {
  import opened Basics

  datatype Thread = Starter | Manager

  /** Where `start` is. */
  datatype StarterPc =
    | Calling | Entered | Waiting | Woken | TimedOut
    | FailLock(afterJoin: bool) | FailHeld(afterJoin: bool) | Joining | Returned(port: nat) | Threw

  /** Where `runManagement` is; `failed` marks unwinding after an exception. */
  datatype ManagerPc =
    | NotCreated | Building | PublishLock | PublishHeld | Preparing | Running
    | StartedLock | StartedHeld | Looping | FinishLock | FinishHeld
    | ClearLock(failed: bool) | ClearHeld(failed: bool) | Dropping(failed: bool)
    | RecordLock | RecordHeld | Exited

  /** What an observer would write down, in order. */
  datatype Mark = StopAsked | StartedOn(port: nat)

  datatype Shared = Shared(
    attempted: bool, complete: bool, succeeded: bool, stopRequested: bool, boundPort: nat, failure: bool,
    published: bool)

  /** The server object on the management thread's stack. */
  datatype Server = Server(alive: bool, told: bool, port: nat)

  datatype State = State(
    holder: Option<Thread>, shared: Shared, server: Server, starter: StarterPc, manager: ManagerPc, marks: seq<Mark>)

  const START := State(
    None, Shared(false, false, false, false, 0, false, false), Server(false, false, 0), Calling, NotCreated, [])

  // ----- the critical sections -----

  function Tell(server: Server, published: bool): Server {
    if published then server.(told := true) else server
  }

  function RequestStop(s: State): State {
    s.(shared := s.shared.(stopRequested := true), server := Tell(s.server, s.shared.published),
       marks := s.marks + [StopAsked])
  }

  function OnStarted(s: State): State {
    if s.shared.stopRequested then s.(server := s.server.(told := true))
    else
      s.(shared := s.shared.(boundPort := s.server.port, succeeded := true, complete := true),
         marks := s.marks + [StartedOn(s.server.port)])
  }

  function RecordFailure(s: State): State {
    s.(shared := s.shared.(failure := true, complete := true))
  }

  function Publish(s: State): State {
    s.(shared := s.shared.(published := true), server := Tell(s.server, s.shared.stopRequested))
  }

  // ----- moves -----

  datatype Move =
    // any other caller: a request to stop, or another call of start, which is refused
    | StopCall | StartAgain
    // the caller of start
    | StartLock | StartCreate(ok: bool) | Wake | Timeout | Decide |
      AfterTimeout | FailureLock | FailureRecord | JoinDone
    // the management thread
    | Build(ok: bool, port: nat) | LockPublish | DoPublish | Prepare(ok: bool) | EnterLoop(ok: bool) | LockStarted
    | DoStarted | LoopReturn | LoopThrow | LockFinish | DoFinish | LockClear | DoClear | Drop | LockRecord | DoRecord

  predicate Free(s: State) {
    s.holder.None?
  }

  predicate Enabled(s: State, m: Move) {
    match m
    case StopCall => Free(s)
    case StartAgain => Free(s) && s.shared.attempted
    case StartLock => s.starter == Calling && Free(s)
    case StartCreate(_) => s.starter == Entered
    case Wake => s.starter == Waiting && Free(s) && s.shared.complete
    case Timeout => s.starter == Waiting && Free(s) && !s.shared.complete
    case Decide => s.starter == Woken
    case AfterTimeout => s.starter == TimedOut
    case FailureLock => s.starter.FailLock? && Free(s)
    case FailureRecord => s.starter.FailHeld?
    case JoinDone => s.starter == Joining && s.manager == Exited
    case Build(_, _) => s.manager == Building
    case LockPublish => s.manager == PublishLock && Free(s)
    case DoPublish => s.manager == PublishHeld
    case Prepare(_) => s.manager == Preparing
    case EnterLoop(ok) => s.manager == Running
    case LockStarted => s.manager == StartedLock && Free(s)
    case DoStarted => s.manager == StartedHeld
    case LoopReturn => s.manager == Looping && s.server.told
    case LoopThrow => s.manager == Looping
    case LockFinish => s.manager == FinishLock && Free(s)
    case DoFinish => s.manager == FinishHeld
    case LockClear => s.manager.ClearLock? && Free(s)
    case DoClear => s.manager.ClearHeld?
    case Drop => s.manager.Dropping?
    case LockRecord => s.manager == RecordLock && Free(s)
    case DoRecord => s.manager == RecordHeld
  }

  function Take(s: State, t: Thread): State {
    s.(holder := Some(t))
  }

  function Leave(s: State): State {
    s.(holder := None)
  }

  function StarterMove(s: State, m: Move): State
    requires Enabled(s, m)
  {
    match m
    case StartLock => Take(s, Starter).(starter := Entered)
    case StartCreate(ok) =>
      var t := Leave(s).(shared := s.shared.(attempted := true));
      if ok then t.(starter := Waiting, manager := Building) else t.(starter := FailLock(false))
    case Wake => Take(s, Starter).(starter := Woken)
    case Timeout => Take(s, Starter).(starter := TimedOut)
    case Decide =>
      if s.shared.succeeded then Leave(s).(starter := Returned(s.shared.boundPort))
      else Leave(s).(starter := Joining)
    case AfterTimeout => Leave(RequestStop(s)).(starter := FailLock(true))
    case FailureLock => Take(s, Starter).(starter := FailHeld(s.starter.afterJoin))
    case FailureRecord => Leave(RecordFailure(s)).(starter := if s.starter.afterJoin then Joining else Threw)
    case _ => s.(starter := Threw)
  }

  function ManagerMove(s: State, m: Move): State
    requires Enabled(s, m)
  {
    match m
    case Build(ok, port) =>
      if ok then s.(server := Server(true, false, port), manager := PublishLock) else s.(manager := RecordLock)
    case LockPublish => Take(s, Manager).(manager := PublishHeld)
    case DoPublish => Leave(Publish(s)).(manager := Preparing)
    case Prepare(ok) => s.(manager := if ok then Running else ClearLock(true))
    case EnterLoop(ok) =>
      if !ok then s.(manager := ClearLock(true))
      else s.(manager := if s.server.told then Looping else StartedLock)
    case LockStarted => Take(s, Manager).(manager := StartedHeld)
    case DoStarted => Leave(OnStarted(s)).(manager := Looping)
    case LoopReturn => s.(manager := FinishLock)
    case LoopThrow => s.(manager := ClearLock(true))
    case LockFinish => Take(s, Manager).(manager := FinishHeld)
    case DoFinish => Leave(s.(shared := s.shared.(complete := true))).(manager := ClearLock(false))
    case LockClear => Take(s, Manager).(manager := ClearHeld(s.manager.failed))
    case DoClear => Leave(s.(shared := s.shared.(published := false))).(manager := Dropping(s.manager.failed))
    case Drop => s.(server := s.server.(alive := false), manager := if s.manager.failed then RecordLock else Exited)
    case LockRecord => Take(s, Manager).(manager := RecordHeld)
    case _ => Leave(RecordFailure(s)).(manager := Exited)
  }

  predicate ByStarter(m: Move) {
    m in {StartLock, StartCreate(true), StartCreate(false), Wake, Timeout, Decide, AfterTimeout, FailureLock,
          FailureRecord, JoinDone}
  }

  predicate ByManager(m: Move) {
    !ByStarter(m) && m != StopCall && m != StartAgain
  }

  function Next(s: State, m: Move): State
    requires Enabled(s, m)
  {
    if m == StopCall then RequestStop(s)
    else if m == StartAgain then s
    else if ByStarter(m) then StarterMove(s, m)
    else ManagerMove(s, m)
  }

  function Run(moves: seq<Move>): State {
    if moves == [] then START
    else
      var s, m := Run(moves[..|moves| - 1]), moves[|moves| - 1];
      if Enabled(s, m) then Next(s, m) else s
  }

  // ----- the invariant -----

  predicate StarterHolds(pc: StarterPc) {
    pc in {Entered, Woken, TimedOut} || pc.FailHeld?
  }

  predicate ManagerHolds(pc: ManagerPc) {
    pc in {PublishHeld, StartedHeld, FinishHeld, RecordHeld} || pc.ClearHeld?
  }

  /** The server object exists on the management thread's stack. */
  predicate ServerScope(pc: ManagerPc) {
    pc !in {NotCreated, Building, RecordLock, RecordHeld, Exited}
  }

  /** Between publication and withdrawal. */
  predicate PublishedScope(pc: ManagerPc) {
    ServerScope(pc) && pc !in {PublishLock, PublishHeld} && !pc.Dropping?
  }

  /** The management thread has left the server loop, or never had one. */
  predicate PastLoop(pc: ManagerPc) {
    pc in {FinishLock, FinishHeld, RecordLock, RecordHeld, Exited} || pc.ClearLock? || pc.ClearHeld? || pc.Dropping?
  }

  predicate NoStopBefore(marks: seq<Mark>, i: nat)
    requires i <= |marks|
  {
    forall j :: 0 <= j < i ==> marks[j] != StopAsked
  }

  predicate StartedBeforeStop(s: State) {
    exists i :: 0 <= i < |s.marks| && s.marks[i] == StartedOn(s.shared.boundPort) && NoStopBefore(s.marks, i)
  }

  predicate Inv(s: State) {
    && (s.holder == Some(Starter) <==> StarterHolds(s.starter))
    && (s.holder == Some(Manager) <==> ManagerHolds(s.manager))
    && (s.server.alive <==> ServerScope(s.manager))
    && (s.shared.published <==> PublishedScope(s.manager))
    && (s.shared.published && s.shared.stopRequested ==> s.server.told)
    && (s.shared.stopRequested <==> StopAsked in s.marks)
    && (s.shared.succeeded ==> StartedBeforeStop(s))
    && (s.starter in {Calling, Entered, FailLock(false), FailHeld(false)} ==> s.manager == NotCreated)
    && (s.manager == NotCreated ==> s.starter in {Calling, Entered, FailLock(false), FailHeld(false), Threw})
    && (s.shared.attempted <==> s.starter !in {Calling, Entered})
    && (s.shared.succeeded ==> s.shared.complete && (s.manager == Looping || PastLoop(s.manager)))
    && (s.starter in {Calling, Entered, TimedOut} ==> !s.shared.complete)
    && (s.shared.complete ==> s.shared.succeeded || PastLoop(s.manager) || s.shared.stopRequested ||
                              s.manager == NotCreated)
    && (s.starter == Woken ==> s.shared.complete)
    && (s.starter == FailLock(true) || s.starter == FailHeld(true) ==> s.shared.stopRequested)
    && (s.starter == Joining ==> s.shared.stopRequested || PastLoop(s.manager))
    && (s.starter.Returned? ==> s.shared.succeeded && s.starter.port == s.shared.boundPort)
    && (s.starter == Threw ==> s.manager in {NotCreated, Exited})
  }

  lemma MarkAppended(s: State, marks: seq<Mark>)
    requires StartedBeforeStop(s) && s.marks <= marks
    ensures StartedBeforeStop(s.(marks := marks))
  {
    var i :| 0 <= i < |s.marks| && s.marks[i] == StartedOn(s.shared.boundPort) && NoStopBefore(s.marks, i);
    assert marks[i] == s.marks[i] && NoStopBefore(marks, i);
  }

  lemma StopInv(s: State)
    requires Inv(s)
    ensures Inv(RequestStop(s))
  {
    if s.shared.succeeded {
      MarkAppended(s, s.marks + [StopAsked]);
      var t := s.(marks := s.marks + [StopAsked]);
      var i :| 0 <= i < |t.marks| && t.marks[i] == StartedOn(t.shared.boundPort) && NoStopBefore(t.marks, i);
      assert RequestStop(s).marks[i] == StartedOn(RequestStop(s).shared.boundPort);
    }
  }

  lemma WaitingInv(s: State, m: Move)
    requires Inv(s) && Enabled(s, m) && (m in {StartLock, Wake, Timeout, Decide} || m.StartCreate?)
    ensures Inv(StarterMove(s, m))
  {
    hide StartedBeforeStop, NoStopBefore;
    SameMarks(s);
  }

  lemma FailingInv(s: State, m: Move)
    requires Inv(s) && Enabled(s, m) && m in {AfterTimeout, FailureLock, FailureRecord, JoinDone}
    ensures Inv(StarterMove(s, m))
  {
    hide StartedBeforeStop, NoStopBefore;
    SameMarks(s);
    if m == AfterTimeout {
      StopInv(s);
      SameMarks(RequestStop(s));
    }
  }

  lemma StarterMoveInv(s: State, m: Move)
    requires Inv(s) && Enabled(s, m) && ByStarter(m)
    ensures Inv(StarterMove(s, m))
  {
    hide Inv, Enabled;
    if m in {AfterTimeout, FailureLock, FailureRecord, JoinDone} {
      FailingInv(s, m);
    } else {
      WaitingInv(s, m);
    }
  }

  /** `StartedBeforeStop` depends on the marks and the bound port only. */
  lemma SameMarks(s: State)
    ensures forall t: State :: t.marks == s.marks && t.shared.boundPort == s.shared.boundPort ==>
              (StartedBeforeStop(t) <==> StartedBeforeStop(s))
  {
    forall t: State | t.marks == s.marks && t.shared.boundPort == s.shared.boundPort
      ensures StartedBeforeStop(t) <==> StartedBeforeStop(s)
    {
      if StartedBeforeStop(t) {
        var i :| 0 <= i < |t.marks| && t.marks[i] == StartedOn(t.shared.boundPort) && NoStopBefore(t.marks, i);
        assert s.marks[i] == StartedOn(s.shared.boundPort) && NoStopBefore(s.marks, i);
      }
      if StartedBeforeStop(s) {
        var i :| 0 <= i < |s.marks| && s.marks[i] == StartedOn(s.shared.boundPort) && NoStopBefore(s.marks, i);
        assert t.marks[i] == StartedOn(t.shared.boundPort) && NoStopBefore(t.marks, i);
      }
    }
  }

  lemma OnStartedInv(s: State)
    requires Inv(s) && s.manager == StartedHeld
    ensures Inv(Leave(OnStarted(s)).(manager := Looping))
  {
    var t := Leave(OnStarted(s)).(manager := Looping);
    if s.shared.stopRequested {
      SameMarks(s);
    } else {
      var i := |s.marks|;
      assert t.marks[i] == StartedOn(t.shared.boundPort) && NoStopBefore(t.marks, i);
    }
  }

  /** The management thread is still on its way into the server loop. */
  predicate Entering(m: Move) {
    m.Build? || m.Prepare? || m.EnterLoop? || m in {LockPublish, DoPublish, LockStarted, DoStarted}
  }

  lemma EnteringInv(s: State, m: Move)
    requires Inv(s) && Enabled(s, m) && ByManager(m) && Entering(m)
    ensures Inv(ManagerMove(s, m))
  {
    hide StartedBeforeStop, NoStopBefore;
    SameMarks(s);
    if m == DoStarted {
      OnStartedInv(s);
    }
  }

  lemma LeavingInv(s: State, m: Move)
    requires Inv(s) && Enabled(s, m) && ByManager(m) && !Entering(m)
    ensures Inv(ManagerMove(s, m))
  {
    hide StartedBeforeStop, NoStopBefore;
    SameMarks(s);
  }

  lemma ManagerMoveInv(s: State, m: Move)
    requires Inv(s) && Enabled(s, m) && ByManager(m)
    ensures Inv(ManagerMove(s, m))
  {
    hide Inv, Enabled;
    if Entering(m) {
      EnteringInv(s, m);
    } else {
      LeavingInv(s, m);
    }
  }

  lemma NextInv(s: State, m: Move)
    requires Inv(s) && Enabled(s, m)
    ensures Inv(Next(s, m))
  {
    hide Inv;
    if m == StopCall {
      StopInv(s);
    } else if ByStarter(m) {
      StarterMoveInv(s, m);
    } else if ByManager(m) {
      ManagerMoveInv(s, m);
    }
  }

  lemma {:induction false} RunInv(moves: seq<Move>)
    ensures Inv(Run(moves))
  {
    if moves != [] {
      var s, m := Run(moves[..|moves| - 1]), moves[|moves| - 1];
      RunInv(moves[..|moves| - 1]);
      if Enabled(s, m) {
        NextInv(s, m);
      }
    }
  }

  // ----- theorems over all interleavings -----

  /** A stop is never lost, the borrowed pointer never outlives the server object, and a thread
      about to lock the mutex never holds it already. */
  lemma Safety(moves: seq<Move>)
    ensures var s := Run(moves);
            && (s.shared.stopRequested && s.shared.published ==> s.server.told)
            && (s.shared.published ==> s.server.alive)
            && (s.starter == Calling || s.starter == Waiting || s.starter.FailLock? ==> s.holder != Some(Starter))
            && (s.manager in {PublishLock, StartedLock, FinishLock, RecordLock} || s.manager.ClearLock? ==>
                  s.holder != Some(Manager))
  {
    RunInv(moves);
  }

  /** `start` returns a port only if the server reported that port before any stop was asked. */
  lemma PortMeansStartedFirst(moves: seq<Move>)
    requires Run(moves).starter.Returned?
    ensures var s := Run(moves);
            exists i :: 0 <= i < |s.marks| && s.marks[i] == StartedOn(s.starter.port) && NoStopBefore(s.marks, i)
  {
    RunInv(moves);
  }

  /** When `start` has thrown, the management thread is gone and so is its server. */
  lemma ThrowMeansJoined(moves: seq<Move>)
    requires Run(moves).starter == Threw
    ensures var s := Run(moves); s.manager in {NotCreated, Exited} && !s.server.alive && !s.shared.published
  {
    RunInv(moves);
  }

  /** How far the management thread is from its end. */
  function ManagerDistance(pc: ManagerPc): nat {
    match pc
    case Building => 15
    case PublishLock => 14
    case PublishHeld => 13
    case Preparing => 12
    case Running => 11
    case StartedLock => 10
    case StartedHeld => 9
    case Looping => 8
    case FinishLock => 7
    case FinishHeld => 6
    case ClearLock(_) => 5
    case ClearHeld(_) => 4
    case Dropping(_) => 3
    case RecordLock => 2
    case RecordHeld => 1
    case _ => 0
  }

  /** How far `start` is from its end; before the thread exists its whole life still lies ahead. */
  function StarterDistance(pc: StarterPc): nat {
    match pc
    case Calling => 22
    case Entered => 21
    case Waiting => 5
    case TimedOut => 4
    case Woken => 4
    case FailLock(_) => 3
    case FailHeld(_) => 2
    case Joining => 1
    case _ => 0
  }

  function Distance(s: State): nat {
    StarterDistance(s.starter) + ManagerDistance(s.manager)
  }

  lemma StarterAdvances(s: State, m: Move)
    requires Enabled(s, m) && ByStarter(m) && Inv(s)
    ensures Distance(StarterMove(s, m)) < Distance(s)
  {
    hide StartedBeforeStop, NoStopBefore;
  }

  lemma ManagerAdvances(s: State, m: Move)
    requires Enabled(s, m) && ByManager(m)
    ensures Distance(ManagerMove(s, m)) < Distance(s)
  {
  }

  /** How many moves of `start` and of the management thread took effect. */
  function Steps(moves: seq<Move>): nat {
    if moves == [] then 0
    else
      var before, m := moves[..|moves| - 1], moves[|moves| - 1];
      Steps(before) + if (ByStarter(m) || ByManager(m)) && Enabled(Run(before), m) then 1 else 0
  }

  /** However the threads interleave, and however often a stop is asked, the two threads take at
      most twenty-two steps between them. */
  lemma {:induction false} RunsAreShort(moves: seq<Move>)
    ensures Steps(moves) + Distance(Run(moves)) <= 22
  {
    hide Inv;
    if moves != [] {
      var before, m := moves[..|moves| - 1], moves[|moves| - 1];
      var s := Run(before);
      RunsAreShort(before);
      RunInv(before);
      if Enabled(s, m) {
        if ByStarter(m) {
          StarterAdvances(s, m);
        } else if ByManager(m) {
          ManagerAdvances(s, m);
        }
      }
    }
  }

  /** The next move of a thread that is not waiting for the other one. */
  function ManagerStep(s: State): Move {
    match s.manager
    case Building => Build(true, 0)
    case PublishLock => LockPublish
    case PublishHeld => DoPublish
    case Preparing => Prepare(true)
    case Running => EnterLoop(true)
    case StartedLock => LockStarted
    case StartedHeld => DoStarted
    case Looping => LoopReturn
    case FinishLock => LockFinish
    case FinishHeld => DoFinish
    case ClearLock(_) => LockClear
    case ClearHeld(_) => DoClear
    case Dropping(_) => Drop
    case RecordLock => LockRecord
    case _ => DoRecord
  }

  function StarterStep(s: State): Move {
    match s.starter
    case Calling => StartLock
    case Entered => StartCreate(true)
    case Waiting => if s.shared.complete then Wake else Timeout
    case Woken => Decide
    case TimedOut => AfterTimeout
    case FailLock(_) => FailureLock
    case FailHeld(_) => FailureRecord
    case _ => JoinDone
  }

  predicate Alive(pc: ManagerPc) {
    pc != NotCreated && pc != Exited
  }

  lemma HeldByOne(s: State)
    ensures Free(s) || s.holder == Some(Starter) || s.holder == Some(Manager)
  {
    if s.holder.Some? {
      match s.holder.value {
        case Starter =>
        case Manager =>
      }
    }
  }

  lemma ManagerCanMove(s: State)
    requires s.holder != Some(Starter) && (s.holder == Some(Manager) <==> ManagerHolds(s.manager))
    requires Alive(s.manager) && (s.manager == Looping ==> s.server.told)
    ensures Enabled(s, ManagerStep(s))
  {
    HeldByOne(s);
  }

  lemma StarterCanMove(s: State)
    requires s.starter != Joining && !s.starter.Returned? && s.starter != Threw
    requires s.holder != Some(Manager) && (s.holder == Some(Starter) <==> StarterHolds(s.starter))
    ensures Enabled(s, StarterStep(s))
  {
    HeldByOne(s);
  }

  /** `start` cannot hang: while it is running, one of the two threads can always move, and when
      it joins the management thread that thread is not left in a server loop that was never
      told to stop.  With `RunsAreShort`, `start` ends. */
  lemma StartNeverHangs(moves: seq<Move>)
    requires !Run(moves).starter.Returned? && Run(moves).starter != Threw
    ensures var s := Run(moves);
            && (Enabled(s, StarterStep(s)) || Enabled(s, ManagerStep(s)))
            && (s.starter == Joining && s.manager == Looping ==> s.server.told)
            && (s.starter == Joining && s.manager != Exited ==> Enabled(s, ManagerStep(s)))
  {
    hide StartedBeforeStop, NoStopBefore, Enabled;
    RunInv(moves);
    var s := Run(moves);
    if s.holder == Some(Manager) || (s.starter == Joining && s.manager != Exited) {
      ManagerCanMove(s);
    } else if s.starter == Joining {
      JoinEnds(s);
    } else {
      StarterCanMove(s);
    }
  }

  lemma JoinEnds(s: State)
    requires s.starter == Joining && s.manager == Exited
    ensures Enabled(s, StarterStep(s))
  {
  }
}

/** The management server as an object: the fields its mutex protects, one method for each
    critical section, each proved equal to the step of the protocol it carries out. */
module ManagementControl {
  import opened Basics
  import opened Management
  import Protocol = Management

  class TcpServer {
    var stopping: bool
    const boundPort: nat

    constructor (port: nat)
      ensures boundPort == port && !stopping
    {
      boundPort := port;
      stopping := false;
    }

    method RequestServerStop()
      modifies this
      ensures stopping
    {
      stopping := true;
    }
  }

  /** The fields the mutex protects; each method is one critical section. */
  class ManagementServer {
    var server: TcpServer?
    var attempted: bool
    var startupComplete: bool
    var startupSucceeded: bool
    var stopRequested: bool
    var boundPort: nat
    var failure: bool

    constructor ()
      ensures SharedView() == START.shared && server == null
    {
      server := null;
      attempted, startupComplete, startupSucceeded, stopRequested := false, false, false, false;
      boundPort, failure := 0, false;
    }

    function SharedView(): Shared
      reads this
    {
      Shared(attempted, startupComplete, startupSucceeded, stopRequested, boundPort, failure, server != null)
    }

    /** The state machine's view of the object and the server it may borrow. */
    function View(owner: TcpServer, s: State): State
      reads this, owner
    {
      s.(shared := SharedView(), server := s.server.(told := owner.stopping, port := owner.boundPort))
    }

    method RequestStop(owner: TcpServer, ghost s: State)
      requires server == null || server == owner
      modifies this, owner
      ensures View(owner, s).shared == Protocol.RequestStop(old(View(owner, s))).shared
      ensures View(owner, s).server == Protocol.RequestStop(old(View(owner, s))).server
      ensures server == old(server)
    {
      stopRequested := true;
      if server != null {
        server.RequestServerStop();
      }
    }

    method Publish(owner: TcpServer, ghost s: State)
      requires server == null
      modifies this, owner
      ensures View(owner, s) == Protocol.Publish(old(View(owner, s)))
      ensures server == owner
    {
      server := owner;
      if stopRequested {
        owner.RequestServerStop();
      }
    }

    method OnStarted(owner: TcpServer, ghost s: State)
      modifies this, owner
      ensures View(owner, s).shared == Protocol.OnStarted(old(View(owner, s))).shared
      ensures View(owner, s).server == Protocol.OnStarted(old(View(owner, s))).server
      ensures server == old(server)
    {
      if stopRequested {
        owner.RequestServerStop();
        return;
      }
      boundPort := owner.boundPort;
      startupSucceeded := true;
      startupComplete := true;
    }

    method RecordFailure(owner: TcpServer, ghost s: State)
      modifies this
      ensures View(owner, s) == Protocol.RecordFailure(old(View(owner, s)))
      ensures server == old(server)
    {
      failure := true;
      startupComplete := true;
    }

    method ClearControl()
      modifies this
      ensures server == null
      ensures SharedView() == old(SharedView()).(published := false)
    {
      server := null;
    }

    method Attempt()
      modifies this
      ensures SharedView() == old(SharedView()).(attempted := true) && server == old(server)
    {
      attempted := true;
    }

    method Finish()
      modifies this
      ensures SharedView() == old(SharedView()).(complete := true) && server == old(server)
    {
      startupComplete := true;
    }
  }

  /** The whole protocol on objects: the control block, the server on the management thread's stack, and
      where the two threads are.  What a thread does next is decided by what it reads there. */
  class Threads {
    const control: ManagementServer
    var owner: TcpServer
    var alive: bool
    var holder: Option<Thread>
    var starter: StarterPc
    var manager: ManagerPc
    var marks: seq<Mark>

    constructor ()
      ensures View() == START && Valid() && fresh(control) && fresh(owner)
    {
      control := new ManagementServer();
      owner := new TcpServer(0);
      alive, holder, starter, manager, marks := false, None, Calling, NotCreated, [];
    }

    function View(): State
      reads this, control, owner
    {
      State(holder, control.SharedView(), Server(alive, owner.stopping, owner.boundPort), starter, manager, marks)
    }

    /** The control block borrows no server but the one on the stack. */
    ghost predicate Valid()
      reads this, control, owner
    {
      Inv(View()) && (control.server == null || control.server == owner)
    }

    method StarterTurn(m: Move)
      requires Valid() && Enabled(View(), m) && ByStarter(m)
      modifies this, control, owner
      ensures View() == StarterMove(old(View()), m) && owner == old(owner)
      ensures control.server == old(control.server)
    {
      hide Inv;
      match m {
        case StartLock =>
          holder, starter := Some(Starter), Entered;
        case StartCreate(ok) =>
          control.Attempt();
          holder := None;
          if ok {
            starter, manager := Waiting, Building;
          } else {
            starter := FailLock(false);
          }
        case Wake =>
          holder, starter := Some(Starter), Woken;
        case Timeout =>
          holder, starter := Some(Starter), TimedOut;
        case Decide =>
          holder := None;
          starter := if control.startupSucceeded then Returned(control.boundPort) else Joining;
        case AfterTimeout =>
          control.RequestStop(owner, View());
          marks := marks + [StopAsked];
          holder, starter := None, FailLock(true);
        case FailureLock =>
          holder, starter := Some(Starter), FailHeld(starter.afterJoin);
        case FailureRecord =>
          control.RecordFailure(owner, View());
          holder, starter := None, if starter.afterJoin then Joining else Threw;
        case JoinDone =>
          starter := Threw;
        case _ =>
      }
    }

    /** From the construction of the server to the loop. */
    method Rising(m: Move)
      requires Valid() && Enabled(View(), m)
      requires m.Build? || m in {LockPublish, DoPublish, Prepare(true), Prepare(false)} || m.EnterLoop?
      modifies this, control, owner
      ensures View() == ManagerMove(old(View()), m) && (owner == old(owner) || fresh(owner))
      ensures control.server == null || control.server == owner
    {
      match m {
        case Build(ok, port) =>
          assert control.server == null;
          if ok {
            owner := new TcpServer(port);
            alive, manager := true, PublishLock;
          } else {
            manager := RecordLock;
          }
        case LockPublish =>
          holder, manager := Some(Manager), PublishHeld;
        case DoPublish =>
          assert control.server == null;
          control.Publish(owner, View());
          holder, manager := None, Preparing;
        case Prepare(ok) =>
          manager := if ok then Running else ClearLock(true);
        case EnterLoop(ok) =>
          manager := if !ok then ClearLock(true) else if owner.stopping then Looping else StartedLock;
        case _ =>
      }
    }

    /** From the report of the start to the end of the loop. */
    method Serving(m: Move)
      requires Valid() && Enabled(View(), m)
      requires m in {LockStarted, DoStarted, LoopReturn, LoopThrow, LockFinish, DoFinish}
      modifies this, control, owner
      ensures View() == ManagerMove(old(View()), m) && owner == old(owner)
      ensures control.server == old(control.server)
    {
      hide Inv;
      match m {
        case LockStarted =>
          holder, manager := Some(Manager), StartedHeld;
        case DoStarted =>
          var stopped := control.stopRequested;
          control.OnStarted(owner, View());
          if !stopped {
            marks := marks + [StartedOn(owner.boundPort)];
          }
          holder, manager := None, Looping;
        case LoopReturn =>
          manager := FinishLock;
        case LoopThrow =>
          manager := ClearLock(true);
        case LockFinish =>
          holder, manager := Some(Manager), FinishHeld;
        case DoFinish =>
          control.Finish();
          holder, manager := None, ClearLock(false);
        case _ =>
      }
    }

    /** From the withdrawal of the server to the end of the thread. */
    method Falling(m: Move)
      requires Valid() && Enabled(View(), m) && m in {LockClear, DoClear, Drop, LockRecord, DoRecord}
      modifies this, control
      ensures View() == ManagerMove(old(View()), m) && owner == old(owner)
      ensures control.server == null || control.server == owner
    {
      hide Inv;
      match m {
        case LockClear =>
          holder, manager := Some(Manager), ClearHeld(manager.failed);
        case DoClear =>
          control.ClearControl();
          holder, manager := None, Dropping(manager.failed);
        case Drop =>
          alive, manager := false, if manager.failed then RecordLock else Exited;
        case LockRecord =>
          holder, manager := Some(Manager), RecordHeld;
        case DoRecord =>
          control.RecordFailure(owner, View());
          holder, manager := None, Exited;
        case _ =>
      }
    }

    method Turn(m: Move)
      requires Valid() && Enabled(View(), m)
      modifies this, control, owner
      ensures Valid() && View() == Next(old(View()), m) && (owner == old(owner) || fresh(owner))
    {
      hide Inv, Enabled, StarterMove, ManagerMove;
      NextInv(View(), m);
      if m == StopCall {
        control.RequestStop(owner, View());
        marks := marks + [StopAsked];
      } else if ByStarter(m) {
        StarterTurn(m);
      } else if m.Build? || m in {LockPublish, DoPublish, Prepare(true), Prepare(false)} || m.EnterLoop? {
        Rising(m);
      } else if m in {LockStarted, DoStarted, LoopReturn, LoopThrow, LockFinish, DoFinish} {
        Serving(m);
      } else if m != StartAgain {
        Falling(m);
      }
    }
  }

  /** The objects driven by any interleaving are in the state the theorems speak about. */
  method Drive(moves: seq<Move>) returns (threads: Threads)
    ensures threads.Valid() && threads.View() == Run(moves)
  {
    hide Inv, Enabled, Next;
    threads := new Threads();
    for k := 0 to |moves|
      invariant fresh(threads) && fresh(threads.control) && fresh(threads.owner)
      invariant threads.Valid() && threads.View() == Run(moves[..k])
    {
      assert moves[..k + 1][..k] == moves[..k];
      if Enabled(threads.View(), moves[k]) {
        threads.Turn(moves[k]);
      }
    }
    assert moves[..|moves|] == moves;
  }
}
