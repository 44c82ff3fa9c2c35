/** What every run of the stage ledger keeps, over all requests, outcomes and points of death. */
module StageLedgerRuns {
  import opened Basics
  import opened StageLedger

  // ----- the shape of a reachable ledger -----

  predicate AllSettled(runs: seq<Run>) {
    forall i :: 0 <= i < |runs| ==> runs[i].status != Running
  }

  /** `run` could be admitted under `plan` after exactly the records `prior`. */
  predicate Admissible(plan: Authorization, role: Role, prior: seq<Run>, run: Run) {
    && AllSettled(prior)
    && (forall i :: 0 <= i < |prior| ==> prior[i].id != run.id)
    && 0.0 < run.reserved && (run.status == Running ==> run.charged.None?)
    && Total(prior, "") + run.reserved <= plan.seconds
    && (role == Builder && run.kind == Ctest && BASELINE <= run.id ==> CountIds(prior, BASELINE) < 3)
    && (run.kind in plan.Limits(role) ==> CountKind(prior, run.kind) < plan.Limits(role)[run.kind])
    && (plan.r008.Some? ==> R008Admissible(plan, role, plan.r008.value, prior, run))
  }

  predicate R008Admissible(plan: Authorization, role: Role, r: R008, prior: seq<Run>, run: Run) {
    && (R008_RUN <= run.id ==> Total(prior, R008_RUN) + run.reserved <= r.Seconds(role))
    && (R008_RUN <= run.id && role == Builder ==> Total(prior, "") + run.reserved + r.m3Reserve <= plan.seconds)
    && (run.kind == R008Link ==> InSequence(r.Slots(), prior, run.id))
  }

  /** `id` is the next sample: every earlier slot has its one valid record, no later slot has any. */
  predicate InSequence(slots: seq<string>, prior: seq<Run>, id: string) {
    && id in slots
    && (forall k :: 0 <= k < IndexOf(slots, id) ==> OneValid(prior, slots[k]))
    && (forall i :: 0 <= i < |prior| ==> prior[i].id !in slots[IndexOf(slots, id) + 1..])
  }

  predicate History(plan: Authorization, role: Role, runs: seq<Run>) {
    forall i :: 0 <= i < |runs| ==> Admissible(plan, role, runs[..i], runs[i])
  }

  /** `auth` is at least as strict as `plan`; a plan without R008 rules asks for none. */
  predicate Conforms(auth: Authorization, plan: Authorization) {
    && auth.seconds <= plan.seconds
    && (forall role, kind :: kind in plan.Limits(role) ==>
          kind in auth.Limits(role) && auth.Limits(role)[kind] <= plan.Limits(role)[kind])
    && (plan.r008.Some? ==> auth.r008 == plan.r008)
  }

  predicate AllConform(steps: seq<Step>, plan: Authorization) {
    forall i :: 0 <= i < |steps| && steps[i].Enter? ==> Conforms(steps[i].q.auth, plan)
  }

  predicate FlightOk(s: System, f: Flight) {
    && f.runs == s.disk.Of(f.role).runs
    && f.runs != [] && f.runs[|f.runs| - 1] == NewRun(f.request)
    && !s.disk.Of(f.role).pending
  }

  predicate Inv(s: System, plan: Authorization) {
    && History(plan, Builder, s.disk.builder.runs)
    && History(plan, Reviewer, s.disk.reviewer.runs)
    && (AllSettled(s.disk.builder.runs) || AllSettled(s.disk.reviewer.runs))
    && (s.flight.Some? ==> FlightOk(s, s.flight.value))
  }

  // ----- what the checks mean -----

  lemma {:induction false} FirstStopNone(q: Request, role: Role, runs: seq<Run>)
    ensures FirstStop(q, role, runs).None? <==>
            AllSettled(runs) &&
            forall i :: 0 <= i < |runs| && runs[i].bytesUnknown ==> Reconciled(q, role, runs[i])
  {
    if runs != [] {
      var init := runs[..|runs| - 1];
      FirstStopNone(q, role, init);
      assert forall i :: 0 <= i < |init| ==> init[i] == runs[i];
      if FirstStop(q, role, runs).None? {
        forall i | 0 <= i < |runs|
          ensures runs[i].status != Running && (runs[i].bytesUnknown ==> Reconciled(q, role, runs[i]))
        {
          if i < |init| {
            assert init[i] == runs[i];
          }
        }
      }
    }
  }

  lemma AdmittedMeans(d: Disk, locked: bool, q: Request)
    requires Entry(d, locked, q).refusal.None?
    ensures !locked && q.role.Some? && AllSettled(d.builder.runs) && AllSettled(d.reviewer.runs)
    ensures LedgerGate(q, q.role.value, d.Of(q.role.value).runs).None? && 0.0 < q.maximum
    ensures q.id !in d.Of(q.role.value).directories && !d.Of(q.role.value).pending
  {
    hide LedgerGate, RunName;
    FirstStopNone(q, Builder, d.builder.runs);
    FirstStopNone(q, Reviewer, d.reviewer.runs);
  }

  lemma LinkGateMeans(q: Request, r: R008, runs: seq<Run>)
    requires LinkGate(q, r, runs).None?
    ensures InSequence(r.Slots(), runs, q.id)
  {
    hide OneValid;
    var slots := r.Slots();
    forall k | 0 <= k < IndexOf(slots, q.id)
      ensures OneValid(runs, slots[k])
    {
      assert SlotDone(q, runs, slots, k);
    }
  }

  lemma AdmissionIsAdmissible(plan: Authorization, role: Role, q: Request, runs: seq<Run>)
    requires Conforms(q.auth, plan) && AllSettled(runs) && 0.0 < q.maximum && LedgerGate(q, role, runs).None?
    ensures Admissible(plan, role, runs, NewRun(q))
  {
    hide Total, CountIds, CountKind, InSequence, LinkGate;
    if q.auth.r008.Some? && q.kind == R008Link {
      LinkGateMeans(q, q.auth.r008.value, runs);
    }
  }

  // ----- every step keeps the invariant -----

  lemma HistoryGrows(plan: Authorization, role: Role, runs: seq<Run>, run: Run)
    requires History(plan, role, runs) && Admissible(plan, role, runs, run)
    ensures History(plan, role, runs + [run])
  {
    hide Admissible;
    var all := runs + [run];
    forall i | 0 <= i < |all|
      ensures Admissible(plan, role, all[..i], all[i])
    {
      if i < |runs| {
        assert all[..i] == runs[..i];
        assert Admissible(plan, role, runs[..i], runs[i]);
      } else {
        assert all[..i] == runs;
      }
    }
  }

  lemma SettledAdmissible(plan: Authorization, role: Role, prior: seq<Run>, q: Request, run: Run, o: Outcome)
    requires Admissible(plan, role, prior, run)
    ensures Admissible(plan, role, prior, Settled(q, run, o))
  {
    hide Total, CountIds, CountKind, InSequence;
  }

  lemma HistorySettles(plan: Authorization, role: Role, q: Request, runs: seq<Run>, o: Outcome)
    requires History(plan, role, runs) && runs != []
    ensures History(plan, role, SettleLast(q, runs, o)) && AllSettled(SettleLast(q, runs, o))
  {
    hide Settled;
    var settled := SettleLast(q, runs, o);
    var n := |runs| - 1;
    assert Admissible(plan, role, runs[..n], runs[n]);
    assert Settled(q, runs[n], o).status != Running by { SettledStatus(q, runs[n], o); }
    hide Admissible;
    forall i | 0 <= i < |settled|
      ensures Admissible(plan, role, settled[..i], settled[i])
    {
      assert settled[..i] == runs[..i];
      if i < n {
        assert Admissible(plan, role, runs[..i], runs[i]);
      } else {
        SettledAdmissible(plan, role, runs[..n], q, runs[n], o);
      }
    }
  }

  lemma SettledStatus(q: Request, run: Run, o: Outcome)
    ensures Settled(q, run, o).status != Running
  {
  }

  /** A cut-off rewrite leaves the ledger as it was or as intended, never in between. */
  lemma WriteIsAtomic(d: Disk, role: Role, runs: seq<Run>, n: nat)
    requires n <= |WriteEffects(d, role, runs)|
    ensures var after := ApplyAll(d, WriteEffects(d, role, runs)[..n]);
            && (after == d || after == d.With(role, d.Of(role).(pending := true)) ||
                after == d.With(role, d.Of(role).(runs := runs)))
            && (n == 2 ==> after == d.With(role, d.Of(role).(runs := runs)))
  {
    var effects := WriteEffects(d, role, runs);
    if n == 1 {
      assert effects[..1] == [effects[0]];
    } else if n == 2 {
      assert effects[..2] == effects == [OpenTemporary(role), Replace(role, runs)];
      assert effects[1..] == [Replace(role, runs)] && [Replace(role, runs)][1..] == [];
      var started := Apply(d, OpenTemporary(role));
      assert ApplyAll(d, effects) == ApplyAll(started, [Replace(role, runs)]);
      assert ApplyAll(started, [Replace(role, runs)]) == Apply(started, Replace(role, runs));
    }
  }

  /** How an entry leaves the disk, wherever its process dies. */
  lemma EntryIsAtomic(d: Disk, locked: bool, q: Request, n: nat)
    requires n <= |Entry(d, locked, q).effects|
    ensures var a := Entry(d, locked, q);
            var after := ApplyAll(d, a.effects[..n]);
            && (n < 3 ==> forall role :: after.Of(role).runs == d.Of(role).runs)
            && (n == 3 ==> a.refusal.None? && !after.Of(q.role.value).pending &&
                           (forall role :: after.Of(role).runs ==
                              if role == q.role.value then d.Of(role).runs + [NewRun(q)] else d.Of(role).runs))
            && |a.effects| <= 3 && (a.refusal.None? ==> |a.effects| == 3)
  {
    assert Gate(d, locked, q).None? ==> q.role.Some?;
    hide Gate;
    var a := Entry(d, locked, q);
    if n > 0 {
      var role := q.role.value;
      var runs := d.Of(role).runs + [NewRun(q)];
      var made := Apply(d, a.effects[0]);
      assert a.effects[..n][1..] == a.effects[1..][..n - 1];
      if a.refusal.None? {
        assert a.effects[1..] == WriteEffects(d, role, runs) == WriteEffects(made, role, runs);
        WriteIsAtomic(made, role, runs, n - 1);
      } else {
        assert a.effects[..n][1..] == [];
      }
    }
  }

  lemma EnterInv(s: System, plan: Authorization, q: Request, survives: nat)
    requires Inv(s, plan) && Conforms(q.auth, plan)
    ensures Inv(AfterEnter(s, q, survives), plan)
  {
    hide Conforms, History, AllSettled, Entry, NewRun;
    var a := Entry(s.disk, s.flight.Some?, q);
    var n := Min(survives, |a.effects|);
    EntryIsAtomic(s.disk, s.flight.Some?, q, n);
    assert a.effects[..|a.effects|] == a.effects;
    var t := AfterEnter(s, q, survives);
    assert t.disk == ApplyAll(s.disk, a.effects[..n]);
    assert t.disk.Of(Builder).runs == t.disk.builder.runs && t.disk.Of(Reviewer).runs == t.disk.reviewer.runs;
    if a.refusal.None? {
      AdmittedMeans(s.disk, s.flight.Some?, q);
      var role := q.role.value;
      var runs := s.disk.Of(role).runs;
      assert AllSettled(runs);
      assert History(plan, role, runs);
      AdmissionIsAdmissible(plan, role, q, runs);
      HistoryGrows(plan, role, runs, NewRun(q));
    } else if s.flight.Some? {
      LockedEntry(s.disk, q);
    }
  }

  lemma LockedEntry(d: Disk, q: Request)
    ensures Entry(d, true, q).refusal.Some? && Entry(d, true, q).effects == []
  {
  }

  lemma ExitInv(s: System, plan: Authorization, o: Outcome, survives: nat)
    requires Inv(s, plan) && s.flight.Some?
    ensures Inv(AfterExit(s, s.flight.value, o, survives), plan)
  {
    hide History, SettleLast, ApplyAll, WriteEffects, AllSettled;
    var f := s.flight.value;
    var settled := SettleLast(f.request, f.runs, o);
    var effects := WriteEffects(s.disk, f.role, settled);
    WriteIsAtomic(s.disk, f.role, settled, Min(survives, |effects|));
    HistorySettles(plan, f.role, f.request, f.runs, o);
  }

  predicate Fits(step: Step, plan: Authorization) {
    step.Enter? ==> Conforms(step.q.auth, plan)
  }

  lemma StepInv(s: System, plan: Authorization, step: Step)
    requires Inv(s, plan) && Fits(step, plan)
    ensures Inv(Next(s, step), plan)
  {
    hide Conforms, History, AllSettled, AfterEnter, AfterExit;
    match step {
      case Enter(q, survives) => EnterInv(s, plan, q, survives);
      case Exit(o, survives) =>
        if s.flight.Some? {
          ExitInv(s, plan, o, survives);
        }
      case Die =>
    }
  }

  lemma {:induction false} RunInv(steps: seq<Step>, plan: Authorization)
    requires AllConform(steps, plan)
    ensures Inv(After(EMPTY, steps), plan)
  {
    hide Conforms, Next;
    if steps != [] {
      RunInv(steps[..|steps| - 1], plan);
      StepInv(After(EMPTY, steps[..|steps| - 1]), plan, steps[|steps| - 1]);
    }
  }

  // ----- theorems over every run -----

  lemma HistoryAt(plan: Authorization, role: Role, runs: seq<Run>, i: nat)
    requires History(plan, role, runs) && i < |runs|
    ensures Admissible(plan, role, runs[..i], runs[i])
  {
  }

  /** At most one record of the two ledgers is running, and it is the last of its ledger. */
  lemma OneRunning(steps: seq<Step>, plan: Authorization, a: Role, i: nat, b: Role, j: nat)
    requires AllConform(steps, plan)
    requires var d := After(EMPTY, steps).disk;
             && i < |d.Of(a).runs| && d.Of(a).runs[i].status == Running
             && j < |d.Of(b).runs| && d.Of(b).runs[j].status == Running
    ensures a == b && i == j == |After(EMPTY, steps).disk.Of(a).runs| - 1
  {
    hide After, Admissible;
    RunInv(steps, plan);
    var d := After(EMPTY, steps).disk;
    RunningIsLast(plan, a, d.Of(a).runs, i);
    RunningIsLast(plan, b, d.Of(b).runs, j);
  }

  lemma RunningIsLast(plan: Authorization, role: Role, runs: seq<Run>, i: nat)
    requires History(plan, role, runs) && i < |runs| && runs[i].status == Running
    ensures i == |runs| - 1
  {
    HistoryAt(plan, role, runs, |runs| - 1);
    var prior := runs[..|runs| - 1];
    assert forall k :: 0 <= k < |prior| ==> prior[k] == runs[k];
  }

  /** No role ever records the same run id twice. */
  lemma RunIdsAreUnique(steps: seq<Step>, plan: Authorization, role: Role, i: nat, j: nat)
    requires AllConform(steps, plan) && i < j < |After(EMPTY, steps).disk.Of(role).runs|
    ensures var runs := After(EMPTY, steps).disk.Of(role).runs; runs[i].id != runs[j].id
  {
    hide After;
    RunInv(steps, plan);
    var runs := After(EMPTY, steps).disk.Of(role).runs;
    HistoryAt(plan, role, runs, j);
    assert runs[..j][i] == runs[i];
  }

  /** By how much a run outran its reservation. */
  function Overrun(run: Run): real {
    if Charge(run) > run.reserved then Charge(run) - run.reserved else 0.0
  }

  /** What a role has spent and reserved exceeds its seconds by no more than the overrun of its last
      settled run, and by nothing while a run is under way. */
  lemma SecondsAreConserved(steps: seq<Step>, plan: Authorization, role: Role)
    requires AllConform(steps, plan) && After(EMPTY, steps).disk.Of(role).runs != []
    ensures var runs := After(EMPTY, steps).disk.Of(role).runs;
            var last := runs[|runs| - 1];
            && Total(runs, "") <= plan.seconds + Overrun(last)
            && (last.status == Running ==> Total(runs, "") <= plan.seconds)
  {
    hide After;
    RunInv(steps, plan);
    var runs := After(EMPTY, steps).disk.Of(role).runs;
    HistoryAt(plan, role, runs, |runs| - 1);
  }

  /** The same for the R008 share, after any R008 run; the builder's M3 reserve is left alone too. */
  lemma R008SecondsAreConserved(steps: seq<Step>, plan: Authorization, role: Role, i: nat)
    requires AllConform(steps, plan) && plan.r008.Some?
    requires i < |After(EMPTY, steps).disk.Of(role).runs| && R008_RUN <= After(EMPTY, steps).disk.Of(role).runs[i].id
    ensures var runs := After(EMPTY, steps).disk.Of(role).runs;
            var upto := runs[..i + 1];
            && Total(upto, R008_RUN) <= plan.r008.value.Seconds(role) + Overrun(runs[i])
            && (role == Builder ==> Total(upto, "") + plan.r008.value.m3Reserve <= plan.seconds + Overrun(runs[i]))
  {
    hide After;
    RunInv(steps, plan);
    var runs := After(EMPTY, steps).disk.Of(role).runs;
    HistoryAt(plan, role, runs, i);
    assert runs[..i + 1][..i] == runs[..i];
  }

  lemma {:induction false} KindsWithin(plan: Authorization, role: Role, runs: seq<Run>, kind: Kind)
    requires History(plan, role, runs) && kind in plan.Limits(role)
    ensures CountKind(runs, kind) <= plan.Limits(role)[kind]
  {
    if runs != [] {
      HistoryAt(plan, role, runs, |runs| - 1);
      PrefixHistory(plan, role, runs, |runs| - 1);
      KindsWithin(plan, role, runs[..|runs| - 1], kind);
    }
  }

  lemma PrefixHistory(plan: Authorization, role: Role, runs: seq<Run>, n: nat)
    requires History(plan, role, runs) && n <= |runs|
    ensures History(plan, role, runs[..n])
  {
    hide Admissible;
    forall i | 0 <= i < n
      ensures Admissible(plan, role, runs[..n][..i], runs[..n][i])
    {
      assert runs[..n][..i] == runs[..i];
      assert Admissible(plan, role, runs[..i], runs[i]);
    }
  }

  function BaselineCtests(runs: seq<Run>): nat {
    if runs == [] then 0
    else
      var last := runs[|runs| - 1];
      BaselineCtests(runs[..|runs| - 1]) + if last.kind == Ctest && BASELINE <= last.id then 1 else 0
  }

  lemma {:induction false} BaselineCtestsAreNamed(runs: seq<Run>)
    ensures BaselineCtests(runs) <= CountIds(runs, BASELINE)
  {
    if runs != [] {
      BaselineCtestsAreNamed(runs[..|runs| - 1]);
    }
  }

  lemma {:induction false} BaselinesWithin(plan: Authorization, runs: seq<Run>)
    requires History(plan, Builder, runs)
    ensures BaselineCtests(runs) <= 3
  {
    if runs != [] {
      var prior := runs[..|runs| - 1];
      HistoryAt(plan, Builder, runs, |runs| - 1);
      PrefixHistory(plan, Builder, runs, |runs| - 1);
      BaselinesWithin(plan, prior);
      BaselineCtestsAreNamed(prior);
    }
  }

  /** No kind of run exceeds its sample slots, and the builder never makes a fourth baseline attempt. */
  lemma SlotsAreRespected(steps: seq<Step>, plan: Authorization, role: Role, kind: Kind)
    requires AllConform(steps, plan)
    ensures var d := After(EMPTY, steps).disk;
            && (kind in plan.Limits(role) ==> CountKind(d.Of(role).runs, kind) <= plan.Limits(role)[kind])
            && BaselineCtests(d.builder.runs) <= 3
  {
    hide After, History;
    RunInv(steps, plan);
    var d := After(EMPTY, steps).disk;
    BaselinesWithin(plan, d.builder.runs);
    if kind in plan.Limits(role) {
      KindsWithin(plan, role, d.Of(role).runs, kind);
    }
  }

  /** Every R008 link sample was admitted when each earlier slot had exactly one record, a valid one,
      and no later slot had any. */
  lemma SamplesAreGated(steps: seq<Step>, plan: Authorization, role: Role, i: nat)
    requires AllConform(steps, plan) && plan.r008.Some?
    requires i < |After(EMPTY, steps).disk.Of(role).runs| && After(EMPTY, steps).disk.Of(role).runs[i].kind == R008Link
    ensures var runs := After(EMPTY, steps).disk.Of(role).runs;
            InSequence(plan.r008.value.Slots(), runs[..i], runs[i].id)
  {
    hide After;
    RunInv(steps, plan);
    HistoryAt(plan, role, After(EMPTY, steps).disk.Of(role).runs, i);
  }

  /** So the samples of a role stand in its ledger at strictly increasing slots. */
  lemma SamplesAscend(steps: seq<Step>, plan: Authorization, role: Role, i: nat, j: nat)
    requires AllConform(steps, plan) && plan.r008.Some?
    requires i < j < |After(EMPTY, steps).disk.Of(role).runs|
    requires After(EMPTY, steps).disk.Of(role).runs[i].kind == R008Link
    requires After(EMPTY, steps).disk.Of(role).runs[j].kind == R008Link
    ensures var runs := After(EMPTY, steps).disk.Of(role).runs;
            var slots := plan.r008.value.Slots();
            IndexOf(slots, runs[i].id) < IndexOf(slots, runs[j].id) < |slots|
  {
    hide After, OneValid;
    SamplesAreGated(steps, plan, role, i);
    SamplesAreGated(steps, plan, role, j);
    RunIdsAreUnique(steps, plan, role, i, j);
    var runs := After(EMPTY, steps).disk.Of(role).runs;
    var slots := plan.r008.value.Slots();
    var a, b := IndexOf(slots, runs[i].id), IndexOf(slots, runs[j].id);
    assert runs[..j][i] == runs[i];
    LaterSlots(slots, b);
  }

  lemma LaterSlots(slots: seq<string>, b: nat)
    requires b < |slots|
    ensures forall a :: b < a < |slots| ==> slots[a] in slots[b + 1..]
  {
    forall a | b < a < |slots|
      ensures slots[a] in slots[b + 1..]
    {
      assert slots[b + 1..][a - b - 1] == slots[a];
    }
  }

  // ----- fail closed -----

  /** Some record stops this request. */
  predicate Blocked(d: Disk, q: Request) {
    FirstStop(q, Builder, d.builder.runs).Some? || FirstStop(q, Reviewer, d.reviewer.runs).Some?
  }

  lemma BlockedEntry(d: Disk, locked: bool, q: Request)
    requires Blocked(d, q)
    ensures Entry(d, locked, q).refusal.Some? && Entry(d, locked, q).effects == []
  {
    hide RunName, FirstStop, LedgerGate;
  }

  lemma {:induction false} NothingHappens(s: System, steps: seq<Step>)
    requires s.flight.None?
    requires forall i :: 0 <= i < |steps| && steps[i].Enter? ==> Blocked(s.disk, steps[i].q)
    ensures After(s, steps) == s
  {
    hide Blocked, Entry;
    if steps != [] {
      var step := steps[|steps| - 1];
      NothingHappens(s, steps[..|steps| - 1]);
      if step.Enter? {
        BlockedEntry(s.disk, false, step.q);
      }
    }
  }

  lemma RecordBlocks(d: Disk, q: Request, role: Role, i: nat)
    requires i < |d.Of(role).runs|
    requires var run := d.Of(role).runs[i];
             run.status == Running || (run.bytesUnknown && !Reconciled(q, role, run))
    ensures Blocked(d, q)
  {
    hide FirstStop;
    FirstStopNone(q, role, d.Of(role).runs);
  }

  /** A run whose process died, or whose settlement was lost, ends all execution: whatever either
      role tries afterwards, nothing on disk changes again. */
  lemma DeadRunBlocksForever(s: System, role: Role, i: nat, steps: seq<Step>)
    requires s.flight.None? && i < |s.disk.Of(role).runs| && s.disk.Of(role).runs[i].status == Running
    ensures After(s, steps) == s
  {
    hide Blocked, After, FirstStop;
    forall k | 0 <= k < |steps| && steps[k].Enter?
      ensures Blocked(s.disk, steps[k].q)
    {
      RecordBlocks(s.disk, steps[k].q, role, i);
    }
    NothingHappens(s, steps);
  }

  /** So does a settled run whose output size is unknown, until a matching receipt appears. */
  lemma UnknownBytesBlockForever(s: System, role: Role, i: nat, steps: seq<Step>)
    requires s.flight.None? && i < |s.disk.Of(role).runs| && s.disk.Of(role).runs[i].bytesUnknown
    requires forall k :: 0 <= k < |steps| && steps[k].Enter? ==> !Reconciled(steps[k].q, role, s.disk.Of(role).runs[i])
    ensures After(s, steps) == s
  {
    hide Blocked, After, FirstStop, Reconciled;
    forall k | 0 <= k < |steps| && steps[k].Enter?
      ensures Blocked(s.disk, steps[k].q)
    {
      RecordBlocks(s.disk, steps[k].q, role, i);
    }
    NothingHappens(s, steps);
  }

  /** A process that dies during its entry after the directory but before the record leaves no
      trace in any ledger, and its run id can never be used again. */
  lemma HalfEntryBurnsItsId(s: System, q: Request, survives: nat, later: Request)
    requires Entry(s.disk, s.flight.Some?, q).refusal.None? && 1 <= survives < 3
    requires later.role == q.role && later.id == q.id
    ensures var t := AfterEnter(s, q, survives);
            && (forall role :: t.disk.Of(role).runs == s.disk.Of(role).runs) && t.flight.None?
            && Entry(t.disk, t.flight.Some?, later).refusal.Some?
  {
    hide Gate;
    AdmittedMeans(s.disk, s.flight.Some?, q);
    var effects := Entry(s.disk, s.flight.Some?, q).effects;
    EntryIsAtomic(s.disk, s.flight.Some?, q, survives);
    var role := q.role.value;
    assert effects[..survives][0] == MakeDirectory(role, q.id);
    var made := Apply(s.disk, effects[0]);
    assert q.id in made.Of(role).directories;
    assert effects[..survives][1..] == effects[1..][..survives - 1];
    assert effects[1..] == WriteEffects(made, role, s.disk.Of(role).runs + [NewRun(q)]);
    WriteIsAtomic(made, role, s.disk.Of(role).runs + [NewRun(q)], survives - 1);
  }

  // ----- admission, declaratively -----

  predicate ReceiptsInOrder(q: Request, role: Role, runs: seq<Run>) {
    forall i :: 0 <= i < |runs| && runs[i].bytesUnknown ==> Reconciled(q, role, runs[i])
  }

  predicate SampleApproved(q: Request, r: R008) {
    && q.maximum == r.outerSeconds
    && forall k :: 0 <= k < IndexOf(r.Slots(), q.id) ==>
         IndexOf(r.Slots(), r.Slots()[k]) < 4 && r.Slots()[k] in q.associated
  }

  /** Everything an entry needs, without an order. */
  predicate Eligible(d: Disk, q: Request) {
    && q.role.Some? && RunName(q.id) && q.kind != Unlisted && q.auth.rolesSerial
    && q.maximum <= q.auth.seconds && q.staticOk
    && AllSettled(d.builder.runs) && AllSettled(d.reviewer.runs)
    && ReceiptsInOrder(q, Builder, d.builder.runs) && ReceiptsInOrder(q, Reviewer, d.reviewer.runs)
    && Admissible(q.auth, q.role.value, d.Of(q.role.value).runs, NewRun(q))
    && (q.auth.r008.Some? && q.kind == R008Link ==> SampleApproved(q, q.auth.r008.value))
    && q.size.Some? && q.size.value < q.auth.outputBytes
    && q.id !in d.Of(q.role.value).directories && !d.Of(q.role.value).pending
  }

  lemma LinkGateIff(q: Request, r: R008, runs: seq<Run>)
    ensures LinkGate(q, r, runs).None? <==> InSequence(r.Slots(), runs, q.id) && SampleApproved(q, r)
  {
    hide OneValid;
    if LinkGate(q, r, runs).None? {
      LinkGateMeans(q, r, runs);
      forall k | 0 <= k < IndexOf(r.Slots(), q.id)
        ensures IndexOf(r.Slots(), r.Slots()[k]) < 4 && r.Slots()[k] in q.associated
      {
        assert SlotDone(q, runs, r.Slots(), k);
      }
    }
  }

  lemma LedgerGateIff(q: Request, role: Role, runs: seq<Run>)
    requires AllSettled(runs) && 0.0 < q.maximum
    ensures LedgerGate(q, role, runs).None? <==>
            && Admissible(q.auth, role, runs, NewRun(q))
            && (q.auth.r008.Some? && q.kind == R008Link ==> SampleApproved(q, q.auth.r008.value))
            && q.size.Some? && q.size.value < q.auth.outputBytes
  {
    hide Total, CountIds, CountKind, InSequence, LinkGate, SampleApproved;
    if q.auth.r008.Some? {
      LinkGateIff(q, q.auth.r008.value, runs);
    }
  }

  /** The checks of an entry, whatever their order, admit exactly the eligible requests. */
  lemma AdmittedIff(d: Disk, locked: bool, q: Request)
    ensures Entry(d, locked, q).refusal.None? <==> !locked && Eligible(d, q)
  {
    hide LedgerGate, RunName, R008Admissible, Total, SampleApproved;
    FirstStopNone(q, Builder, d.builder.runs);
    FirstStopNone(q, Reviewer, d.reviewer.runs);
    if q.role.Some? && AllSettled(d.Of(q.role.value).runs) && 0.0 < q.maximum {
      LedgerGateIff(q, q.role.value, d.Of(q.role.value).runs);
    }
  }

  // ----- the R008 gate exists only where the authorization carries R008 -----

  ghost predicate LinkGated(auth: Authorization, slots: seq<string>) {
    forall d: Disk, locked: bool, q: Request ::
      q.auth == auth && q.kind == R008Link && Entry(d, locked, q).refusal.None? ==>
        q.role.Some? && InSequence(slots, d.Of(q.role.value).runs, q.id)
  }

  /** With an authorization that admits link runs at all, the sequence is enforced if and only if
      that authorization has an R008 section: without one the second sample may go first. */
  lemma LinkGatedIffAuthorized(auth: Authorization, slots: seq<string>)
    requires |slots| >= 2 && slots[0] != slots[1] && RunName(slots[1])
    requires auth.r008.Some? ==> auth.r008.value.Slots() == slots
    requires auth.rolesSerial && 0.0 < auth.seconds && 0 < auth.outputBytes
    requires R008Link in auth.Limits(Builder) ==> 0 < auth.Limits(Builder)[R008Link]
    ensures LinkGated(auth, slots) <==> auth.r008.Some?
  {
    if auth.r008.Some? {
      forall d: Disk, locked: bool, q: Request
        | q.auth == auth && q.kind == R008Link && Entry(d, locked, q).refusal.None?
        ensures q.role.Some? && InSequence(slots, d.Of(q.role.value).runs, q.id)
      {
        hide InSequence, RunName;
        AdmittedIff(d, locked, q);
      }
    } else {
      var q := Request(auth, Some(Builder), slots[1], R008Link, auth.seconds, true, false, false, {}, Some(0));
      AdmittedIff(EMPTY.disk, false, q);
      assert Eligible(EMPTY.disk, q);
      assert !OneValid([], slots[0]);
      assert IndexOf(slots, slots[1]) == 1;
      assert !InSequence(slots, [], q.id);
    }
  }
}
