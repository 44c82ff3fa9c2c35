/** A reservation as an object: entering and leaving it, proved equal to the steps of `StageLedger`. */
module StageReservation {
  import opened Basics
  import opened StageLedger

  /** What all processes share: the files and the stage-wide lock. */
  class Stage {
    var disk: Disk
    var locked: bool

    constructor ()
      ensures System(disk, None) == EMPTY && !locked
    {
      disk := EMPTY.disk;
      locked := false;
    }
  }

  method FindStop(q: Request, role: Role, runs: seq<Run>) returns (stop: Option<Refusal>)
    ensures stop == FirstStop(q, role, runs)
  {
    stop := None;
    for i := 0 to |runs|
      invariant stop.None? && FirstStop(q, role, runs[..i]).None?
    {
      assert runs[..i + 1][..i] == runs[..i];
      if runs[i].status == Running {
        StopStays(q, role, runs, i + 1);
        return Some(Unsettled);
      }
      if runs[i].bytesUnknown {
        var reconciled := false;
        if role == Builder && runs[i].id == "run-baseline-ctest-001" {
          reconciled := q.r002;
        }
        if role == Builder && runs[i].id == "run-smoke-001" {
          reconciled := q.r007;
        }
        if !reconciled {
          StopStays(q, role, runs, i + 1);
          return Some(UnknownBytes);
        }
      }
    }
    assert runs[..|runs|] == runs;
  }

  /** The first stop found in a prefix is the first stop. */
  lemma {:induction false} StopStays(q: Request, role: Role, runs: seq<Run>, n: nat)
    requires n <= |runs| && FirstStop(q, role, runs[..n]).Some?
    ensures FirstStop(q, role, runs) == FirstStop(q, role, runs[..n])
  {
    if n == |runs| {
      assert runs[..n] == runs;
    } else {
      assert runs[..|runs| - 1][..n] == runs[..n];
      StopStays(q, role, runs[..|runs| - 1], n);
    }
  }

  method Charged(runs: seq<Run>, prefix: string) returns (total: real)
    ensures total == Total(runs, prefix)
  {
    total := 0.0;
    for i := 0 to |runs|
      invariant total == Total(runs[..i], prefix)
    {
      assert runs[..i + 1][..i] == runs[..i];
      if prefix <= runs[i].id {
        total := total + (if runs[i].charged.Some? then runs[i].charged.value else runs[i].reserved);
      }
    }
    assert runs[..|runs|] == runs;
  }

  method CountPrefixed(runs: seq<Run>, prefix: string) returns (count: nat)
    ensures count == CountIds(runs, prefix)
  {
    count := 0;
    for i := 0 to |runs|
      invariant count == CountIds(runs[..i], prefix)
    {
      assert runs[..i + 1][..i] == runs[..i];
      if prefix <= runs[i].id {
        count := count + 1;
      }
    }
    assert runs[..|runs|] == runs;
  }

  method CountOfKind(runs: seq<Run>, kind: Kind) returns (count: nat)
    ensures count == CountKind(runs, kind)
  {
    count := 0;
    for i := 0 to |runs|
      invariant count == CountKind(runs[..i], kind)
    {
      assert runs[..i + 1][..i] == runs[..i];
      if runs[i].kind == kind {
        count := count + 1;
      }
    }
    assert runs[..|runs|] == runs;
  }

  /** The records with this id, and whether the first of them is valid. */
  method Matches(runs: seq<Run>, id: string) returns (one: bool)
    ensures one <==> OneValid(runs, id)
  {
    var count: nat, valid := 0, false;
    for i := 0 to |runs|
      invariant count == CountNamed(runs[..i], id)
      invariant count == 0 ==> forall k :: 0 <= k < i ==> runs[k].id != id
      invariant count == 1 ==> (valid <==> exists k :: 0 <= k < i && runs[k].id == id && runs[k].status == Valid)
    {
      assert runs[..i + 1][..i] == runs[..i];
      if runs[i].id == id {
        if count == 0 {
          valid := runs[i].status == Valid;
        }
        count := count + 1;
      }
    }
    assert runs[..|runs|] == runs;
    one := count == 1 && valid;
  }

  method CheckLink(q: Request, r: R008, runs: seq<Run>) returns (refusal: Option<Refusal>)
    ensures refusal == LinkGate(q, r, runs)
  {
    var slots := r.Slots();
    if q.id !in slots || q.maximum != r.outerSeconds {
      return Some(UnapprovedSample);
    }
    var position := IndexOf(slots, q.id);
    for k := 0 to position
      invariant forall j :: 0 <= j < k ==> SlotDone(q, runs, slots, j)
    {
      var one := Matches(runs, slots[k]);
      if !one || IndexOf(slots, slots[k]) >= 4 || slots[k] !in q.associated {
        assert !SlotDone(q, runs, slots, k);
        return Some(PriorSample);
      }
    }
    for i := 0 to |runs|
      invariant forall j :: 0 <= j < i ==> runs[j].id !in slots[position + 1..]
    {
      if runs[i].id in slots[position + 1..] {
        return Some(SequenceDrift);
      }
    }
    refusal := None;
  }

  method CheckR008(q: Request, role: Role, r: R008, runs: seq<Run>, charged: real) returns (refusal: Option<Refusal>)
    requires charged == Total(runs, "")
    ensures refusal == R008Gate(q, role, r, runs)
  {
    hide LinkGate;
    var spent := Charged(runs, R008_RUN);
    if R008_RUN <= q.id {
      if spent + q.maximum > r.Seconds(role) {
        return Some(SubbudgetExhausted);
      }
      if role == Builder && charged + q.maximum + r.m3Reserve > q.auth.seconds {
        return Some(ReserveNeeded);
      }
    }
    refusal := None;
    if q.kind == R008Link {
      refusal := CheckLink(q, r, runs);
    }
  }

  method CheckLedger(q: Request, role: Role, runs: seq<Run>) returns (refusal: Option<Refusal>)
    ensures refusal == LedgerGate(q, role, runs)
  {
    hide R008Gate;
    for i := 0 to |runs|
      invariant forall j :: 0 <= j < i ==> runs[j].id != q.id
    {
      if runs[i].id == q.id {
        return Some(DuplicateRun);
      }
    }
    if role == Builder && q.kind == Ctest && BASELINE <= q.id {
      var baselines := CountPrefixed(runs, BASELINE);
      if baselines >= 3 {
        return Some(BaselineExhausted);
      }
    }
    var charged := Charged(runs, "");
    if charged + q.maximum > q.auth.seconds {
      return Some(SecondsExhausted);
    }
    if q.auth.r008.Some? {
      refusal := CheckR008(q, role, q.auth.r008.value, runs, charged);
      if refusal.Some? {
        return;
      }
    }
    if q.size.None? || q.size.value >= q.auth.outputBytes {
      return Some(OutputExhausted);
    }
    var limits := q.auth.Limits(role);
    if q.kind in limits {
      var used := CountOfKind(runs, q.kind);
      if used >= limits[q.kind] {
        return Some(SlotsExhausted);
      }
    }
    refusal := None;
  }

  class Reservation {
    const stage: Stage
    const request: Request
    var ledger: seq<Run>

    constructor (stage: Stage, request: Request)
      ensures this.stage == stage && this.request == request && ledger == []
    {
      this.stage := stage;
      this.request := request;
      ledger := [];
    }

    /** Everything up to the directory: the lock is taken if and only if no check refuses. */
    method Admit() returns (refusal: Option<Refusal>)
      modifies stage`locked
      ensures refusal == Gate(stage.disk, old(stage.locked), request)
      ensures stage.locked == (old(stage.locked) || refusal.None?)
    {
      hide RunName, LedgerGate;
      if request.role.None? || !RunName(request.id) {
        return Some(BadRoleOrRun);
      }
      if request.kind == Unlisted {
        return Some(UnknownKind);
      }
      if !request.auth.rolesSerial {
        return Some(NotSerial);
      }
      if !(0.0 < request.maximum <= request.auth.seconds) {
        return Some(BadReservation);
      }
      if stage.locked {
        return Some(Locked);
      }
      if !request.staticOk {
        return Some(StaticDrift);
      }
      refusal := FindStop(request, Builder, stage.disk.builder.runs);
      if refusal.None? {
        refusal := FindStop(request, Reviewer, stage.disk.reviewer.runs);
      }
      if refusal.None? {
        refusal := CheckLedger(request, request.role.value, stage.disk.Of(request.role.value).runs);
      }
      stage.locked := refusal.None?;
    }

    /** Replace the role's ledger through its temporary; a temporary that already exists makes this fail. */
    method WriteLedger(role: Role) returns (ok: bool)
      modifies stage`disk
      ensures ok == !old(stage.disk).Of(role).pending
      ensures stage.disk == ApplyAll(old(stage.disk), WriteEffects(old(stage.disk), role, ledger))
    {
      if stage.disk.Of(role).pending {
        return false;
      }
      ghost var effects := WriteEffects(stage.disk, role, ledger);
      assert effects[1..] == [Replace(role, ledger)] && effects[1..][1..] == [];
      ghost var before := stage.disk;
      stage.disk := Apply(stage.disk, OpenTemporary(role));
      assert ApplyAll(before, effects) == ApplyAll(stage.disk, [Replace(role, ledger)]);
      assert ApplyAll(stage.disk, [Replace(role, ledger)]) == Apply(stage.disk, Replace(role, ledger));
      stage.disk := Apply(stage.disk, Replace(role, ledger));
      ok := true;
    }

    /** An entry that runs to its end is the step of the system in which nobody dies. */
    method Enter() returns (refusal: Option<Refusal>)
      modifies this, stage
      ensures refusal == Entry(old(stage.disk), old(stage.locked), request).refusal
      ensures stage.disk == ApplyAll(old(stage.disk), Entry(old(stage.disk), old(stage.locked), request).effects)
      ensures stage.locked == (old(stage.locked) || refusal.None?)
      ensures refusal.None? ==>
                && request.role.Some?
                && ledger == old(stage.disk).Of(request.role.value).runs + [NewRun(request)]
    {
      refusal := Admit();
      ghost var before := stage.disk;
      if refusal.Some? {
        return;
      }
      assert request.role.Some? && !old(stage.locked);
      hide Gate;
      var role := request.role.value;
      if request.id in stage.disk.Of(role).directories {
        stage.locked := false;
        return Some(DirectoryExists);
      }
      var made := MakeDirectory(role, request.id);
      stage.disk := Apply(stage.disk, made);
      ledger := stage.disk.Of(role).runs + [NewRun(request)];
      ghost var effects := Entry(before, false, request).effects;
      assert effects[0] == made && effects[1..] == WriteEffects(stage.disk, role, ledger);
      var ok := WriteLedger(role);
      if !ok {
        stage.locked := false;
        return Some(WriteFailed);
      }
    }

    /** Settle the record, rewrite the ledger and give up the lock; raises exactly when the rewrite found a
        temporary in its way, or the record is settled invalid without an exception of the run's own. */
    method Leave(o: Outcome) returns (raises: bool)
      requires request.role.Some? && ledger != [] && ledger[|ledger| - 1] == NewRun(request)
      modifies this, stage
      ensures System(stage.disk, None) ==
              AfterExit(System(old(stage.disk), None), Flight(request, request.role.value, old(ledger)), o, 2)
      ensures !stage.locked
      ensures raises <==> old(stage.disk).Of(request.role.value).pending ||
                          (!o.raised && Settled(request, NewRun(request), o).status == Invalid)
    {
      var role := request.role.value;
      var exceeded := o.elapsed > request.maximum || (o.size.Some? && o.size.value > request.auth.outputBytes);
      var errors := o.size.None? || !o.staticOk;
      var last := ledger[|ledger| - 1];
      var status := if o.raised || exceeded || errors then Invalid else Valid;
      var charged := if errors && request.maximum > o.elapsed then request.maximum else o.elapsed;
      ledger := ledger[..|ledger| - 1] +
        [last.(status := status, charged := Some(charged), bytesUnknown := o.size.None?)];
      assert ledger == SettleLast(request, old(ledger), o);
      ghost var effects := WriteEffects(stage.disk, role, ledger);
      assert effects[..|effects|] == effects;
      var ok := WriteLedger(role);
      stage.locked := false;
      raises := !ok || (!o.raised && (exceeded || errors));
    }
  }
}
