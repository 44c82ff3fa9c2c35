/** Reservations of the regression ledger as durable effects that may be cut short, and what every
    run of them keeps. */
module RegressionRuns {
  import opened Basics
  import opened RegressionLedger

  /** `historic` are the records found when the ledger was begun, `own` those of its reservations in
      the order they appeared; `outputs` are the paths that exist. */
  datatype Disk = Disk(entries: seq<Entry>, historic: seq<Row>, own: seq<Row>, outputs: set<string>)
  {
    function Rows(): seq<Row> {
      historic + own
    }
  }

  datatype Effect = Append(entry: Entry) | MakeOutput(path: string) | Put(row: Row) | FinishLast(elapsed: real)

  /** `Put` writes the file of the newest reservation; the entry rewritten is always the newest. */
  function Apply(d: Disk, e: Effect): Disk {
    match e
    case Append(entry) => d.(entries := d.entries + [entry])
    case MakeOutput(path) => d.(outputs := d.outputs + {path})
    case Put(row) =>
      var n := |d.own|;
      if n > 0 && d.own[n - 1].path == row.path then d.(own := d.own[..n - 1] + [row]) else d.(own := d.own + [row])
    case FinishLast(elapsed) =>
      var n := |d.entries|;
      if n == 0 then d
      else d.(entries := d.entries[..n - 1] + [d.entries[n - 1].(state := Finished, charged := Some(elapsed))])
  }

  function ApplyAll(d: Disk, effects: seq<Effect>): Disk {
    if effects == [] then d else Apply(ApplyAll(d, effects[..|effects| - 1]), effects[|effects| - 1])
  }

  datatype Flight = Flight(id: string, path: string)

  datatype System = System(disk: Disk, flight: Option<Flight>)

  function Torn(f: Flight): Effect {
    Put(Row(f.path, false, false, f.id, false, Missing))
  }

  function Unended(f: Flight): Effect {
    Put(Row(f.path, false, true, f.id, false, Missing))
  }

  /** The durable effects of a reservation, of saving its record, and of ending the run: a record is
      truncated before it is written. */
  function BeginEffects(f: Flight, allowance: real): seq<Effect> {
    [Append(Entry(f.id, Running, Some(allowance), None)), MakeOutput(f.path), Torn(f), Unended(f)]
  }

  function SaveEffects(f: Flight): seq<Effect> {
    [Torn(f), Unended(f)]
  }

  function EndEffects(f: Flight, wall: real, elapsed: real): seq<Effect> {
    [Torn(f), Put(Row(f.path, false, true, f.id, true, Present(Some(wall)))), FinishLast(elapsed)]
  }

  function Used(d: Disk): real {
    EntrySum(d.entries) + RowSum(d.entries, d.Rows())
  }

  predicate Admits(s: System, f: Flight, allowance: real) {
    && s.flight.None?
    && f.path !in s.disk.outputs
    && Acceptable(s.disk.entries, s.disk.Rows())
    && Used(s.disk) + allowance <= TOTAL_SECONDS
    && 0.0 < allowance <= SUITE_SECONDS
  }

  /** `survives` counts the effects that happen before the process dies. */
  datatype Step =
    | Begin(f: Flight, allowance: real, survives: nat)
    | Save(survives: nat)
    | End(wall: real, elapsed: real, survives: nat)
    | Die

  function Cut(d: Disk, effects: seq<Effect>, survives: nat): Disk {
    ApplyAll(d, effects[..Min(survives, |effects|)])
  }

  function Next(s: System, step: Step): System {
    match step
    case Begin(f, allowance, survives) =>
      if !Admits(s, f, allowance) then s
      else
        var effects := BeginEffects(f, allowance);
        System(Cut(s.disk, effects, survives), if survives < |effects| then None else Some(f))
    case Save(survives) =>
      if s.flight.None? then s
      else
        var effects := SaveEffects(s.flight.value);
        System(Cut(s.disk, effects, survives), if survives < |effects| then None else s.flight)
    case End(wall, elapsed, survives) =>
      if s.flight.None? then s
      else System(Cut(s.disk, EndEffects(s.flight.value, wall, elapsed), survives), None)
    case Die => s.(flight := None)
  }

  function After(s: System, steps: seq<Step>): System {
    if steps == [] then s else Next(After(s, steps[..|steps| - 1]), steps[|steps| - 1])
  }

  function Start(historic: seq<Row>, outputs: set<string>): System {
    System(Disk([], historic, [], outputs), None)
  }

  /** Reservation ids are new each time and clocks do not run backwards. */
  predicate Sane(s: System, step: Step) {
    match step
    case Begin(f, _, _) =>
      f.id != "" && !Known(s.disk.entries, f.id) && forall r :: r in s.disk.Rows() ==> r.id != f.id
    case End(wall, elapsed, _) => 0.0 <= wall && 0.0 <= elapsed
    case _ => true
  }

  predicate SaneRun(s: System, steps: seq<Step>) {
    forall i :: 0 <= i < |steps| ==> Sane(After(s, steps[..i]), steps[i])
  }

  // ----- the invariant -----

  /** What the reservation `e` was admitted for, after the entries `prior`. */
  predicate AdmittedAfter(base: real, prior: seq<Entry>, e: Entry) {
    && e.id != "" && !Known(prior, e.id)
    && e.state != Other && e.reserved.Some? && 0.0 < e.reserved.value <= SUITE_SECONDS
    && (e.state == Finished ==> e.charged.Some? && 0.0 <= e.charged.value)
    && base + EntrySum(prior) + e.reserved.value <= TOTAL_SECONDS
  }

  predicate EntriesInv(base: real, entries: seq<Entry>) {
    forall i :: 0 <= i < |entries| ==> AdmittedAfter(base, entries[..i], entries[i])
  }

  /** Every own record belongs to an entry, and to a different one each. */
  predicate OwnInv(entries: seq<Entry>, own: seq<Row>, outputs: set<string>) {
    && (forall r :: r in own ==> !r.link && Known(entries, r.id) && r.path in outputs)
    && DistinctIds(own)
  }

  predicate FlightInv(d: Disk, f: Flight) {
    && d.entries != [] && d.entries[|d.entries| - 1].id == f.id && d.entries[|d.entries| - 1].state == Running
    && d.own != [] && d.own[|d.own| - 1].id == f.id && d.own[|d.own| - 1].path == f.path
  }

  predicate Untouched(entries: seq<Entry>, historic: seq<Row>) {
    forall r :: r in historic ==> !Known(entries, r.id)
  }

  predicate Inv(s: System, historic: seq<Row>) {
    && s.disk.historic == historic
    && EntriesInv(RowSum([], historic), s.disk.entries)
    && Untouched(s.disk.entries, historic)
    && OwnInv(s.disk.entries, s.disk.own, s.disk.outputs)
    && (s.flight.Some? ==> FlightInv(s.disk, s.flight.value))
  }

  // ----- what is used -----

  lemma {:induction false} HistoricCost(entries: seq<Entry>, historic: seq<Row>)
    requires Untouched(entries, historic)
    ensures RowSum(entries, historic) == RowSum([], historic)
  {
    if historic != [] {
      HistoricCost(entries, historic[..|historic| - 1]);
      assert historic[|historic| - 1] in historic;
      assert !Known([], historic[|historic| - 1].id);
    }
  }

  lemma {:induction false} OwnIsFree(entries: seq<Entry>, historic: seq<Row>, own: seq<Row>)
    requires forall r :: r in own ==> Known(entries, r.id)
    ensures RowSum(entries, historic + own) == RowSum(entries, historic)
  {
    if own == [] {
      assert historic + own == historic;
    } else {
      var init := own[..|own| - 1];
      OwnIsFree(entries, historic, init);
      assert (historic + own)[..|historic + own| - 1] == historic + init;
      assert own[|own| - 1] in own;
    }
  }

  /** Each run is counted exactly once: the historic records at their own cost, every reservation by
      its entry alone, its record on disk not again. */
  lemma CountedOnce(s: System, historic: seq<Row>)
    requires Inv(s, historic)
    ensures Used(s.disk) == RowSum([], historic) + EntrySum(s.disk.entries)
  {
    hide EntriesInv, Known;
    HistoricCost(s.disk.entries, historic);
    OwnIsFree(s.disk.entries, historic, s.disk.own);
  }

  // ----- every step keeps it -----

  lemma KnownGrows(entries: seq<Entry>, e: Entry, id: string)
    ensures Known(entries + [e], id) <==> Known(entries, id) || e.id == id
  {
    if Known(entries, id) {
      var k :| k in entries && k.id == id;
      assert k in entries + [e];
    }
    assert e in entries + [e];
  }

  lemma AppendInv(s: System, historic: seq<Row>, f: Flight, allowance: real)
    requires Inv(s, historic) && Admits(s, f, allowance) && Sane(s, Begin(f, allowance, 0))
    ensures Inv(System(Apply(s.disk, BeginEffects(f, allowance)[0]), None), historic)
  {
    hide Known, RowSum, EntrySum, Acceptable, DistinctIds;
    CountedOnce(s, historic);
    var e := Entry(f.id, Running, Some(allowance), None);
    var entries := s.disk.entries;
    var base := RowSum([], historic);
    forall i | 0 <= i < |entries + [e]|
      ensures AdmittedAfter(base, (entries + [e])[..i], (entries + [e])[i])
    {
      if i < |entries| {
        assert (entries + [e])[..i] == entries[..i];
        assert AdmittedAfter(base, entries[..i], entries[i]);
      } else {
        assert (entries + [e])[..i] == entries;
      }
    }
    forall r | r in historic
      ensures !Known(entries + [e], r.id)
    {
      assert r in s.disk.Rows();
      KnownGrows(entries, e, r.id);
    }
    forall r | r in s.disk.own
      ensures Known(entries + [e], r.id)
    {
      KnownGrows(entries, e, r.id);
    }
  }

  lemma OwnAppended(entries: seq<Entry>, own: seq<Row>, outputs: set<string>, row: Row)
    requires OwnInv(entries, own, outputs) && !row.link && Known(entries, row.id) && row.path in outputs
    requires forall r :: r in own ==> r.id != row.id
    ensures OwnInv(entries, own + [row], outputs)
  {
    hide Known;
    var all := own + [row];
    forall i, j | 0 <= i < j < |all| && all[i].id == all[j].id
      ensures all[i].id == ""
    {
      assert own[i] in own;
      assert j < |own|;
    }
  }

  lemma OwnReplaced(entries: seq<Entry>, own: seq<Row>, outputs: set<string>, row: Row)
    requires OwnInv(entries, own, outputs) && !row.link && own != [] && own[|own| - 1].id == row.id
    requires own[|own| - 1].path == row.path
    ensures OwnInv(entries, own[..|own| - 1] + [row], outputs)
  {
    hide Known;
    var all := own[..|own| - 1] + [row];
    assert own[|own| - 1] in own;
    assert forall i :: 0 <= i < |own| ==> all[i].id == own[i].id;
    assert forall r :: r in all ==> r in own || r == row;
  }

  /** The first record of a reservation is new; every later one replaces it. */
  lemma FirstPutInv(d: Disk, historic: seq<Row>, f: Flight, row: Row)
    requires Inv(System(d, None), historic) && d.entries != [] && d.entries[|d.entries| - 1].id == f.id
    requires d.entries[|d.entries| - 1].state == Running
    requires row.id == f.id && row.path == f.path && !row.link && f.path in d.outputs
    requires forall r :: r in d.own ==> r.id != f.id && r.path != f.path
    ensures Inv(System(Apply(d, Put(row)), Some(f)), historic)
  {
    hide EntriesInv, Untouched, DistinctIds;
    assert d.entries[|d.entries| - 1] in d.entries;
    if d.own != [] {
      assert d.own[|d.own| - 1] in d.own;
    }
    OwnAppended(d.entries, d.own, d.outputs, row);
  }

  lemma NextPutInv(d: Disk, historic: seq<Row>, f: Flight, row: Row)
    requires Inv(System(d, Some(f)), historic) && row.id == f.id && row.path == f.path && !row.link
    ensures Inv(System(Apply(d, Put(row)), Some(f)), historic)
  {
    hide EntriesInv, Untouched, Known, DistinctIds;
    OwnReplaced(d.entries, d.own, d.outputs, row);
  }

  lemma FinishInv(d: Disk, historic: seq<Row>, f: Flight, elapsed: real)
    requires Inv(System(d, Some(f)), historic) && 0.0 <= elapsed
    ensures Inv(System(Apply(d, FinishLast(elapsed)), None), historic)
  {
    hide EntrySum, RowSum, DistinctIds, Known;
    var n := |d.entries| - 1;
    var old_ := d.entries[n];
    var done := old_.(state := Finished, charged := Some(elapsed));
    var entries := d.entries[..n] + [done];
    var base := RowSum([], historic);
    assert d.entries == d.entries[..n] + [old_];
    forall i | 0 <= i < |entries|
      ensures AdmittedAfter(base, entries[..i], entries[i])
    {
      assert entries[..i] == d.entries[..i];
      assert AdmittedAfter(base, d.entries[..i], d.entries[i]);
    }
    forall id
      ensures Known(entries, id) <==> Known(d.entries, id)
    {
      KnownGrows(d.entries[..n], old_, id);
      KnownGrows(d.entries[..n], done, id);
    }
  }

  lemma CutZero(d: Disk, effects: seq<Effect>)
    ensures Cut(d, effects, 0) == d
  {
    assert effects[..0] == [];
  }

  lemma CutStep(d: Disk, effects: seq<Effect>, n: nat)
    requires n < |effects|
    ensures Cut(d, effects, n + 1) == Apply(Cut(d, effects, n), effects[n])
  {
    assert effects[..n + 1][..n] == effects[..n];
  }

  lemma CutEnough(d: Disk, effects: seq<Effect>, n: nat)
    requires n >= |effects|
    ensures Cut(d, effects, n) == Cut(d, effects, |effects|)
  {
  }

  lemma Landed(d: Disk, flight: Option<Flight>, historic: seq<Row>)
    requires Inv(System(d, flight), historic)
    ensures Inv(System(d, None), historic)
  {
  }

  lemma BeginInv(s: System, historic: seq<Row>, f: Flight, allowance: real, survives: nat)
    requires Inv(s, historic) && Admits(s, f, allowance) && Sane(s, Begin(f, allowance, survives))
    ensures Inv(Next(s, Begin(f, allowance, survives)), historic)
  {
    hide Inv, Admits, Known;
    var effects := BeginEffects(f, allowance);
    var one := Apply(s.disk, effects[0]);
    var two := Apply(one, effects[1]);
    var three := Apply(two, effects[2]);
    CutZero(s.disk, effects);
    CutStep(s.disk, effects, 0);
    CutStep(s.disk, effects, 1);
    CutStep(s.disk, effects, 2);
    CutStep(s.disk, effects, 3);
    Landed(s.disk, s.flight, historic);
    AppendInv(s, historic, f, allowance);
    NewOutputInv(one, historic, f.path);
    NewRecord(s, historic, f, allowance);
    FirstPutInv(two, historic, f, effects[2].row);
    NextPutInv(three, historic, f, effects[3].row);
    Landed(three, Some(f), historic);
    if survives >= 4 {
      CutEnough(s.disk, effects, survives);
    }
  }

  lemma NewOutputInv(d: Disk, historic: seq<Row>, path: string)
    requires Inv(System(d, None), historic)
    ensures Inv(System(Apply(d, MakeOutput(path)), None), historic)
  {
  }

  lemma NewRecord(s: System, historic: seq<Row>, f: Flight, allowance: real)
    requires Inv(s, historic) && Admits(s, f, allowance) && Sane(s, Begin(f, allowance, 0))
    ensures forall r :: r in s.disk.own ==> r.id != f.id && r.path != f.path
  {
    forall r | r in s.disk.own
      ensures r.id != f.id && r.path != f.path
    {
      assert r in s.disk.Rows();
    }
  }

  lemma SaveInv(s: System, historic: seq<Row>, survives: nat)
    requires Inv(s, historic) && s.flight.Some?
    ensures Inv(Next(s, Save(survives)), historic)
  {
    hide Inv;
    var f := s.flight.value;
    var effects := SaveEffects(f);
    CutZero(s.disk, effects);
    CutStep(s.disk, effects, 0);
    CutStep(s.disk, effects, 1);
    var one := Apply(s.disk, effects[0]);
    NextPutInv(s.disk, historic, f, effects[0].row);
    NextPutInv(one, historic, f, effects[1].row);
    Landed(s.disk, s.flight, historic);
    Landed(one, Some(f), historic);
    if survives >= 2 {
      CutEnough(s.disk, effects, survives);
    }
  }

  lemma EndInv(s: System, historic: seq<Row>, wall: real, elapsed: real, survives: nat)
    requires Inv(s, historic) && s.flight.Some? && 0.0 <= elapsed
    ensures Inv(Next(s, End(wall, elapsed, survives)), historic)
  {
    hide Inv;
    var f := s.flight.value;
    var effects := EndEffects(f, wall, elapsed);
    CutZero(s.disk, effects);
    CutStep(s.disk, effects, 0);
    CutStep(s.disk, effects, 1);
    CutStep(s.disk, effects, 2);
    var one := Apply(s.disk, effects[0]);
    var two := Apply(one, effects[1]);
    NextPutInv(s.disk, historic, f, effects[0].row);
    NextPutInv(one, historic, f, effects[1].row);
    FinishInv(two, historic, f, elapsed);
    Landed(s.disk, s.flight, historic);
    Landed(one, Some(f), historic);
    Landed(two, Some(f), historic);
    if survives >= 3 {
      CutEnough(s.disk, effects, survives);
    }
  }

  lemma StepInv(s: System, historic: seq<Row>, step: Step)
    requires Inv(s, historic) && Sane(s, step)
    ensures Inv(Next(s, step), historic)
  {
    match step {
      case Begin(f, allowance, survives) =>
        if Admits(s, f, allowance) {
          BeginInv(s, historic, f, allowance, survives);
        }
      case Save(survives) =>
        if s.flight.Some? {
          SaveInv(s, historic, survives);
        }
      case End(wall, elapsed, survives) =>
        if s.flight.Some? {
          EndInv(s, historic, wall, elapsed, survives);
        }
      case Die => Landed(s.disk, s.flight, historic);
    }
  }

  lemma {:induction false} RunInv(historic: seq<Row>, outputs: set<string>, steps: seq<Step>)
    requires SaneRun(Start(historic, outputs), steps)
    ensures Inv(After(Start(historic, outputs), steps), historic)
  {
    hide Next, Sane;
    var s := Start(historic, outputs);
    if steps == [] {
      assert Inv(s, historic);
    } else {
      var n := |steps| - 1;
      var before := steps[..n];
      forall i | 0 <= i < n
        ensures Sane(After(s, before[..i]), before[i])
      {
        assert before[..i] == steps[..i];
        assert Sane(After(s, steps[..i]), steps[i]);
      }
      RunInv(historic, outputs, before);
      assert Sane(After(s, steps[..n]), steps[n]);
      StepInv(After(s, before), historic, steps[n]);
    }
  }

  // ----- theorems over every run -----

  function Overrun(e: Entry): real {
    if e.state == Finished && CostOf(e.charged) > CostOf(e.reserved) then
      CostOf(e.charged) - CostOf(e.reserved) else 0.0
  }

  /** Whatever dies and wherever: what the next reservation will be charged is the historic cost plus
      one amount for each reservation, it exceeds the total by no more than the overrun of the newest
      one, and every admission leaves charged plus reserve within the total. */
  lemma SecondsAreConserved(historic: seq<Row>, outputs: set<string>, steps: seq<Step>)
    requires SaneRun(Start(historic, outputs), steps)
    ensures var s := After(Start(historic, outputs), steps);
            && Used(s.disk) == RowSum([], historic) + EntrySum(s.disk.entries)
            && (s.disk.entries != [] ==> Used(s.disk) <= TOTAL_SECONDS + Overrun(s.disk.entries[|s.disk.entries| - 1]))
            && (s.flight.Some? ==> Used(s.disk) <= TOTAL_SECONDS)
  {
    hide After, Known, RowSum, OwnInv, Untouched, SaneRun;
    RunInv(historic, outputs, steps);
    var s := After(Start(historic, outputs), steps);
    CountedOnce(s, historic);
    var n := |s.disk.entries|;
    if n > 0 {
      assert AdmittedAfter(RowSum([], historic), s.disk.entries[..n - 1], s.disk.entries[n - 1]);
    }
  }

  predicate AllReadable(rows: seq<Row>) {
    forall r :: r in rows ==> r.readable
  }

  /** The ledger never makes itself unacceptable: if the historic records were acceptable, the only
      thing that can stop the next reservation from being charged is a record torn by a death. */
  lemma OnlyTearingBlocks(historic: seq<Row>, outputs: set<string>, steps: seq<Step>)
    requires SaneRun(Start(historic, outputs), steps) && Acceptable([], historic)
    ensures var d := After(Start(historic, outputs), steps).disk;
            Acceptable(d.entries, d.Rows()) <==> AllReadable(d.own)
  {
    hide After, SaneRun, RowSum, EntrySum;
    RunInv(historic, outputs, steps);
    var d := After(Start(historic, outputs), steps).disk;
    OwnAcceptable(d, historic);
  }

  lemma OwnAcceptable(d: Disk, historic: seq<Row>)
    requires Inv(System(d, None), historic) && Acceptable([], historic)
    ensures Acceptable(d.entries, d.Rows()) <==> AllReadable(d.own)
  {
    hide RowSum, EntrySum, Known;
    assert forall r :: r in d.Rows() <==> r in historic || r in d.own;
    forall e | e in d.entries
      ensures EntryCost(e).Some?
    {
      var i :| 0 <= i < |d.entries| && d.entries[i] == e;
      assert AdmittedAfter(RowSum([], historic), d.entries[..i], d.entries[i]);
    }
    assert forall r :: r in historic ==> !r.link && r.readable && RowCost(r).Some? by { NoneKnown(); }
    DistinctTogether(d.entries, historic, d.own);
  }

  lemma NoneKnown()
    ensures forall id :: !Known([], id)
  {
  }

  lemma DistinctTogether(entries: seq<Entry>, historic: seq<Row>, own: seq<Row>)
    requires DistinctIds(historic) && DistinctIds(own)
    requires forall r :: r in historic ==> !Known(entries, r.id)
    requires forall r :: r in own ==> Known(entries, r.id)
    ensures DistinctIds(historic + own)
  {
    hide Known;
    var all := historic + own;
    var h := |historic|;
    assert forall i :: 0 <= i < h ==> !Known(entries, historic[i].id);
    assert forall i :: 0 <= i < |own| ==> Known(entries, own[i].id);
    forall i, j | 0 <= i < j < |all| && all[i].id == all[j].id
      ensures all[i].id == ""
    {
      if j < h {
        assert historic[i].id == historic[j].id;
      } else if i >= h {
        assert own[i - h].id == own[j - h].id;
      }
    }
  }

  /** A reservation stays charged in full until its run has ended, and then at its elapsed time:
      entries are only ever added, and only the newest, while its process lives, changes. */
  lemma EntriesOnlyGrow(s: System, historic: seq<Row>, step: Step)
    requires Inv(s, historic) && Sane(s, step)
    ensures var a, b := s.disk.entries, Next(s, step).disk.entries;
            && |a| <= |b| <= |a| + 1
            && (forall i :: 0 <= i < |a| && a[i] != b[i] ==>
                  step.End? && s.flight.Some? && i == |a| - 1 && a[i].state == Running &&
                  b[i] == a[i].(state := Finished, charged := Some(step.elapsed)))
  {
    hide EntriesInv, OwnInv, Untouched, Known, Admits, RowSum, EntrySum;
    match step {
      case Begin(f, allowance, survives) => EntriesAfter(s.disk, BeginEffects(f, allowance), Min(survives, 4));
      case Save(survives) =>
        if s.flight.Some? {
          EntriesAfter(s.disk, SaveEffects(s.flight.value), Min(survives, 2));
        }
      case End(wall, elapsed, survives) =>
        if s.flight.Some? {
          EntriesAfter(s.disk, EndEffects(s.flight.value, wall, elapsed), Min(survives, 3));
        }
      case Die =>
    }
  }

  lemma EntriesAfter(d: Disk, effects: seq<Effect>, n: nat)
    requires n <= |effects| <= 4
    requires forall i :: 1 <= i < |effects| - 1 ==> !effects[i].Append? && !effects[i].FinishLast?
    requires |effects| > 0 ==> !effects[0].FinishLast?
    requires |effects| > 1 ==> !effects[|effects| - 1].Append?
    requires |effects| > 1 && effects[0].Append? ==> !effects[|effects| - 1].FinishLast?
    ensures Cut(d, effects, n).entries ==
            if n > 0 && effects[0].Append? then d.entries + [effects[0].entry]
            else if n > 0 && n == |effects| && effects[n - 1].FinishLast? then Apply(d, effects[n - 1]).entries
            else d.entries
  {
    hide Cut;
    CutZero(d, effects);
    if n > 0 {
      var before, e := Cut(d, effects, n - 1), effects[n - 1];
      CutStep(d, effects, n - 1);
      EntriesBefore(d, effects, n - 1);
      if e.Append? {
        assert n == 1;
      } else if e.FinishLast? {
        assert n == |effects| > 1;
        FinishReadsEntries(before, d, e.elapsed);
      }
    }
  }

  lemma FinishReadsEntries(a: Disk, b: Disk, elapsed: real)
    requires a.entries == b.entries
    ensures Apply(a, FinishLast(elapsed)).entries == Apply(b, FinishLast(elapsed)).entries
  {
  }

  lemma {:induction false} EntriesBefore(d: Disk, effects: seq<Effect>, n: nat)
    requires n < |effects|
    requires forall i :: 1 <= i < |effects| - 1 ==> !effects[i].Append? && !effects[i].FinishLast?
    requires !effects[0].FinishLast?
    ensures Cut(d, effects, n).entries ==
            if n > 0 && effects[0].Append? then d.entries + [effects[0].entry] else d.entries
  {
    CutZero(d, effects);
    if n > 0 {
      CutStep(d, effects, n - 1);
      EntriesBefore(d, effects, n - 1);
    }
  }
}
