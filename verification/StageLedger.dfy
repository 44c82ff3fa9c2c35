/**
 The serial reservation ledger of the tail-localization stage (`budget_v10.py`).

 Two roles keep one ledger each.  A reservation takes a stage-wide lock, checks both ledgers,
 makes its output directory, appends a running record and rewrites the ledger file through a
 temporary; leaving it settles the record the same way.  A process may die between any two of
 those durable effects: the lock is then released and the disk stays as it is.
 */
module StageLedger {
  import opened Basics

  datatype Role = Builder | Reviewer
  datatype Kind =
    | Selfcheck | Offline | Sanitizer | Ctest | Smoke | Staircase | ObservedAbba | ConfirmationAb | R008Link | Unlisted
  datatype Status = Running | Valid | Invalid

  datatype Run = Run(id: string, kind: Kind, status: Status, reserved: real, charged: Option<real>, bytesUnknown: bool)

  datatype R008 = R008(builderSeconds: real, reviewerSeconds: real, m3Reserve: real, samples: seq<string>,
                       outerSeconds: real)
  {
    function Seconds(role: Role): real {
      if role == Builder then builderSeconds else reviewerSeconds
    }

    function Slots(): seq<string> {
      seq(|samples|, i requires 0 <= i < |samples| => "run-" + samples[i])
    }
  }

  datatype Authorization = Authorization(
    rolesSerial: bool, seconds: real, outputBytes: int, builderLimits: map<Kind, nat>, reviewerLimits: map<Kind, nat>,
    r008: Option<R008>)
  {
    function Limits(role: Role): map<Kind, nat> {
      if role == Builder then builderLimits else reviewerLimits
    }
  }

  /** A reservation and what its process finds outside the ledgers: `role` is absent for any other
      name, `associated` are the earlier samples whose association files check out, `size` is the
      output scan (absent when it raises), `r002` and `r007` whether the receipt of that name fits. */
  datatype Request = Request(
    auth: Authorization, role: Option<Role>, id: string, kind: Kind, maximum: real, staticOk: bool, r002: bool,
    r007: bool, associated: set<string>, size: Option<int>)

  datatype Refusal =
    | BadRoleOrRun | UnknownKind | NotSerial | BadReservation | Locked | StaticDrift | Unsettled | UnknownBytes
    | DuplicateRun | BaselineExhausted | SecondsExhausted | SubbudgetExhausted | ReserveNeeded | UnapprovedSample
    | PriorSample | SequenceDrift | OutputExhausted | SlotsExhausted | DirectoryExists | WriteFailed

  // ----- the disk -----

  datatype Files = Files(runs: seq<Run>, pending: bool, directories: set<string>)

  datatype Disk = Disk(builder: Files, reviewer: Files)
  {
    function Of(role: Role): Files {
      if role == Builder then builder else reviewer
    }

    function With(role: Role, files: Files): Disk {
      if role == Builder then this.(builder := files) else this.(reviewer := files)
    }
  }

  datatype Effect = MakeDirectory(role: Role, id: string) | OpenTemporary(role: Role) |
    Replace(role: Role, runs: seq<Run>)

  function Apply(d: Disk, e: Effect): Disk {
    var files := d.Of(e.role);
    match e
    case MakeDirectory(role, id) => d.With(role, files.(directories := files.directories + {id}))
    case OpenTemporary(role) => d.With(role, files.(pending := true))
    case Replace(role, runs) => d.With(role, files.(pending := false, runs := runs))
  }

  function ApplyAll(d: Disk, effects: seq<Effect>): Disk
    decreases |effects|
  {
    if effects == [] then d else ApplyAll(Apply(d, effects[0]), effects[1..])
  }

  // ----- sums over a ledger -----

  function Charge(run: Run): real {
    if run.charged.Some? then run.charged.value else run.reserved
  }

  /** What the runs whose id starts with `prefix` cost. */
  function Total(runs: seq<Run>, prefix: string): real {
    if runs == [] then 0.0
    else
      var last := runs[|runs| - 1];
      Total(runs[..|runs| - 1], prefix) + if prefix <= last.id then Charge(last) else 0.0
  }

  function CountIds(runs: seq<Run>, prefix: string): nat {
    if runs == [] then 0
    else CountIds(runs[..|runs| - 1], prefix) + if prefix <= runs[|runs| - 1].id then 1 else 0
  }

  function CountKind(runs: seq<Run>, kind: Kind): nat {
    if runs == [] then 0
    else CountKind(runs[..|runs| - 1], kind) + if runs[|runs| - 1].kind == kind then 1 else 0
  }

  function CountNamed(runs: seq<Run>, id: string): nat {
    if runs == [] then 0
    else CountNamed(runs[..|runs| - 1], id) + if runs[|runs| - 1].id == id then 1 else 0
  }

  // ----- admission -----

  const BASELINE := "run-baseline-ctest-"
  const R008_RUN := "run-r008-"

  predicate Word(c: char) {
    'a' <= c <= 'z' || '0' <= c <= '9'
  }

  /** `run-` and then words of lower-case letters and digits with single dashes between them. */
  predicate RunName(id: string) {
    && |id| > 4 && id[..4] == "run-" && Word(id[4]) && Word(id[|id| - 1])
    && (forall i :: 4 <= i < |id| ==> Word(id[i]) || id[i] == '-')
    && (forall i :: 4 < i < |id| && id[i] == '-' ==> id[i - 1] != '-')
  }

  predicate Reconciled(q: Request, role: Role, run: Run) {
    role == Builder && ((run.id == "run-baseline-ctest-001" && q.r002) || (run.id == "run-smoke-001" && q.r007))
  }

  /** The record at `run` stops every new execution, and why. */
  function Stops(q: Request, role: Role, run: Run): Option<Refusal> {
    if run.status == Running then Some(Unsettled)
    else if run.bytesUnknown && !Reconciled(q, role, run) then Some(UnknownBytes)
    else None
  }

  function FirstStop(q: Request, role: Role, runs: seq<Run>): Option<Refusal> {
    if runs == [] then None
    else
      var before := FirstStop(q, role, runs[..|runs| - 1]);
      if before.Some? then before else Stops(q, role, runs[|runs| - 1])
  }

  predicate OneValid(runs: seq<Run>, id: string) {
    CountNamed(runs, id) == 1 && exists i :: 0 <= i < |runs| && runs[i].id == id && runs[i].status == Valid
  }

  function IndexOf(slots: seq<string>, id: string): (k: nat)
    ensures k <= |slots|
    ensures k < |slots| ==> slots[k] == id
    ensures forall i :: 0 <= i < k ==> slots[i] != id
    ensures id in slots ==> k < |slots|
  {
    if slots == [] then 0 else if slots[0] == id then 0 else 1 + IndexOf(slots[1..], id)
  }

  /** The sample in slot `k` is done: one valid record, its files associated; only four slots have
      known parameters. */
  predicate SlotDone(q: Request, runs: seq<Run>, slots: seq<string>, k: nat)
    requires k < |slots|
  {
    OneValid(runs, slots[k]) && IndexOf(slots, slots[k]) < 4 && slots[k] in q.associated
  }

  function LinkGate(q: Request, r: R008, runs: seq<Run>): Option<Refusal> {
    var slots := r.Slots();
    var position := IndexOf(slots, q.id);
    if q.id !in slots || q.maximum != r.outerSeconds then Some(UnapprovedSample)
    else if exists k :: 0 <= k < position && !SlotDone(q, runs, slots, k) then Some(PriorSample)
    else if exists i :: 0 <= i < |runs| && runs[i].id in slots[position + 1..] then Some(SequenceDrift)
    else None
  }

  function R008Gate(q: Request, role: Role, r: R008, runs: seq<Run>): Option<Refusal> {
    if R008_RUN <= q.id && Total(runs, R008_RUN) + q.maximum > r.Seconds(role) then Some(SubbudgetExhausted)
    else if R008_RUN <= q.id && role == Builder && Total(runs, "") + q.maximum + r.m3Reserve > q.auth.seconds then
      Some(ReserveNeeded)
    else if q.kind == R008Link then LinkGate(q, r, runs)
    else None
  }

  /** The checks against the role's own ledger, in order. */
  function LedgerGate(q: Request, role: Role, runs: seq<Run>): Option<Refusal> {
    if exists i :: 0 <= i < |runs| && runs[i].id == q.id then Some(DuplicateRun)
    else if role == Builder && q.kind == Ctest && BASELINE <= q.id && CountIds(runs, BASELINE) >= 3 then
      Some(BaselineExhausted)
    else if Total(runs, "") + q.maximum > q.auth.seconds then Some(SecondsExhausted)
    else
      var r008 := if q.auth.r008.Some? then R008Gate(q, role, q.auth.r008.value, runs) else None;
      if r008.Some? then r008
      else if q.size.None? || q.size.value >= q.auth.outputBytes then Some(OutputExhausted)
      else
        var limits := q.auth.Limits(role);
        if q.kind in limits && CountKind(runs, q.kind) >= limits[q.kind] then Some(SlotsExhausted)
        else None
  }

  /** Every check of an entry, in order. */
  function Gate(d: Disk, locked: bool, q: Request): Option<Refusal> {
    if q.role.None? || !RunName(q.id) then Some(BadRoleOrRun)
    else if q.kind == Unlisted then Some(UnknownKind)
    else if !q.auth.rolesSerial then Some(NotSerial)
    else if !(0.0 < q.maximum <= q.auth.seconds) then Some(BadReservation)
    else if locked then Some(Locked)
    else if !q.staticOk then Some(StaticDrift)
    else
      var builder := FirstStop(q, Builder, d.builder.runs);
      if builder.Some? then builder
      else
        var reviewer := FirstStop(q, Reviewer, d.reviewer.runs);
        if reviewer.Some? then reviewer
        else LedgerGate(q, q.role.value, d.Of(q.role.value).runs)
  }

  function NewRun(q: Request): Run {
    Run(q.id, q.kind, Running, q.maximum, None, false)
  }

  /** Rewriting a ledger: a temporary left behind by a dead process makes the write fail. */
  function WriteEffects(d: Disk, role: Role, runs: seq<Run>): seq<Effect> {
    if d.Of(role).pending then [] else [OpenTemporary(role), Replace(role, runs)]
  }

  /** The durable effects of an entry, in order, and how it ends. */
  datatype Attempt = Attempt(effects: seq<Effect>, refusal: Option<Refusal>)

  function Entry(d: Disk, locked: bool, q: Request): Attempt {
    var refusal := Gate(d, locked, q);
    if refusal.Some? then Attempt([], refusal)
    else
      var role := q.role.value;
      if q.id in d.Of(role).directories then Attempt([], Some(DirectoryExists))
      else if d.Of(role).pending then Attempt([MakeDirectory(role, q.id)], Some(WriteFailed))
      else Attempt([MakeDirectory(role, q.id)] + WriteEffects(d, role, d.Of(role).runs + [NewRun(q)]), None)
  }

  // ----- settlement -----

  datatype Outcome = Outcome(elapsed: real, size: Option<int>, staticOk: bool, raised: bool)

  predicate Exceeded(q: Request, o: Outcome) {
    o.elapsed > q.maximum || (o.size.Some? && o.size.value > q.auth.outputBytes)
  }

  predicate Misaccounted(o: Outcome) {
    o.size.None? || !o.staticOk
  }

  function Settled(q: Request, run: Run, o: Outcome): Run {
    run.(status := if o.raised || Exceeded(q, o) || Misaccounted(o) then Invalid else Valid,
         charged := Some(if Misaccounted(o) && q.maximum > o.elapsed then q.maximum else o.elapsed),
         bytesUnknown := o.size.None?)
  }

  function SettleLast(q: Request, runs: seq<Run>, o: Outcome): seq<Run>
    requires runs != []
  {
    runs[..|runs| - 1] + [Settled(q, runs[|runs| - 1], o)]
  }

  // ----- the system -----

  /** The process that holds the lock: its request and its copy of the ledger. */
  datatype Flight = Flight(request: Request, role: Role, runs: seq<Run>)

  datatype System = System(disk: Disk, flight: Option<Flight>)

  const EMPTY := System(Disk(Files([], false, {}), Files([], false, {})), None)

  /** `survives` counts the durable effects that happen before the process dies; one that outlives
      them all goes on. */
  datatype Step = Enter(q: Request, survives: nat) | Exit(o: Outcome, survives: nat) | Die

  function AfterEnter(s: System, q: Request, survives: nat): System {
    var a := Entry(s.disk, s.flight.Some?, q);
    if survives < |a.effects| then s.(disk := ApplyAll(s.disk, a.effects[..survives]))
    else
      var disk := ApplyAll(s.disk, a.effects);
      if a.refusal.Some? then s.(disk := disk)
      else System(disk, Some(Flight(q, q.role.value, s.disk.Of(q.role.value).runs + [NewRun(q)])))
  }

  function AfterExit(s: System, f: Flight, o: Outcome, survives: nat): System
    requires f.runs != []
  {
    var effects := WriteEffects(s.disk, f.role, SettleLast(f.request, f.runs, o));
    System(ApplyAll(s.disk, effects[..Min(survives, |effects|)]), None)
  }

  function Next(s: System, step: Step): System {
    match step
    case Enter(q, survives) => AfterEnter(s, q, survives)
    case Exit(o, survives) =>
      if s.flight.None? || s.flight.value.runs == [] then s else AfterExit(s, s.flight.value, o, survives)
    case Die => s.(flight := None)
  }

  function After(s: System, steps: seq<Step>): System {
    if steps == [] then s else Next(After(s, steps[..|steps| - 1]), steps[|steps| - 1])
  }
}
