/** Reserving and finishing as methods on the files of a role, proved equal to the steps of
    `RegressionRuns` in which nobody dies. */
module RegressionReservation {
  import opened Basics
  import opened RegressionLedger
  import opened RegressionRuns

  /** The role's directory; `holder` is the process that has the ledger lock. */
  class Root {
    var disk: Disk
    var holder: Option<Flight>

    constructor (historic: seq<Row>, outputs: set<string>)
      ensures System(disk, holder) == Start(historic, outputs)
    {
      disk := Disk([], historic, [], outputs);
      holder := None;
    }

    ghost function View(): System
      reads this
    {
      System(disk, holder)
    }

    method Write(effect: Effect)
      modifies this`disk
      ensures disk == Apply(old(disk), effect)
    {
      disk := Apply(disk, effect);
    }

    method Reserve(f: Flight, allowance: real) returns (ok: bool)
      modifies this
      ensures ok == old(Admits(View(), f, allowance))
      ensures View() == Next(old(View()), Begin(f, allowance, 4))
    {
      hide Acceptable, EntrySum, RowSum;
      if holder.Some? || f.path in disk.outputs {
        return false;
      }
      var previous := Charged(disk.entries, disk.historic + disk.own);
      if previous.None? || previous.value + allowance > TOTAL_SECONDS {
        return false;
      }
      if !(0.0 < allowance <= SUITE_SECONDS) {
        return false;
      }
      ghost var before := disk;
      ghost var effects := BeginEffects(f, allowance);
      CutZero(before, effects);
      CutStep(before, effects, 0);
      CutStep(before, effects, 1);
      CutStep(before, effects, 2);
      CutStep(before, effects, 3);
      Write(Append(Entry(f.id, Running, Some(allowance), None)));
      Write(MakeOutput(f.path));
      Write(Torn(f));
      Write(Unended(f));
      holder := Some(f);
      ok := true;
    }

    /** The last record and the settlement; `wall` and `elapsed` are two readings of one clock. */
    method Finish(wall: real, elapsed: real)
      requires holder.Some?
      modifies this
      ensures View() == Next(old(View()), End(wall, elapsed, 3))
    {
      var f := holder.value;
      ghost var before := disk;
      ghost var effects := EndEffects(f, wall, elapsed);
      CutZero(before, effects);
      CutStep(before, effects, 0);
      CutStep(before, effects, 1);
      CutStep(before, effects, 2);
      Write(Torn(f));
      Write(Put(Row(f.path, false, true, f.id, true, Present(Some(wall)))));
      Write(FinishLast(elapsed));
      holder := None;
    }
  }
}
