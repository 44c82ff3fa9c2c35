/**
 The role ledger of the regression suite (`benchmark/regression/budget.py`).

 A reservation is written to the ledger before anything runs, and a `run.json` beside the results
 repeats it.  What a role has used is recomputed from both each time: ledger entries first, then
 every `run.json` found on disk that no entry knows.  A process may die between any two writes,
 or in the middle of a `run.json`.
 */
module RegressionLedger {
  import opened Basics

  const TOTAL_SECONDS := 1800.0
  const SUITE_SECONDS := 900.0

  datatype EntryState = Running | Finished | Other

  /** `None` stands for a missing amount and for anything that is not a finite number. */
  datatype Entry = Entry(id: string, state: EntryState, reserved: Option<real>, charged: Option<real>)

  datatype Wall = Missing | Present(seconds: Option<real>)

  /** A `run.json`; an empty `id` stands for a missing one. */
  datatype Row = Row(path: string, link: bool, readable: bool, id: string, ended: bool, wall: Wall)

  function Number(value: Option<real>): Option<real> {
    if value.Some? && value.value >= 0.0 then value else None
  }

  function EntryCost(e: Entry): Option<real> {
    match e.state
    case Running => Number(e.reserved)
    case Finished => Number(e.charged)
    case Other => None
  }

  function RowCost(r: Row): Option<real> {
    if r.ended && r.wall.Present? then Number(r.wall.seconds) else Some(SUITE_SECONDS)
  }

  predicate Known(entries: seq<Entry>, id: string) {
    exists e :: e in entries && e.id == id
  }

  // ----- what `charged` accepts and computes -----

  predicate EntriesOk(entries: seq<Entry>) {
    forall e :: e in entries ==> EntryCost(e).Some?
  }

  predicate RowOk(entries: seq<Entry>, r: Row) {
    !r.link && r.readable && (Known(entries, r.id) || RowCost(r).Some?)
  }

  predicate DistinctIds(rows: seq<Row>) {
    forall i, j :: 0 <= i < j < |rows| && rows[i].id == rows[j].id ==> rows[i].id == ""
  }

  predicate Acceptable(entries: seq<Entry>, rows: seq<Row>) {
    && EntriesOk(entries)
    && (forall r :: r in rows ==> RowOk(entries, r))
    && DistinctIds(rows)
  }

  function CostOf(cost: Option<real>): real {
    if cost.Some? then cost.value else 0.0
  }

  function EntrySum(entries: seq<Entry>): real {
    if entries == [] then 0.0 else EntrySum(entries[..|entries| - 1]) + CostOf(EntryCost(entries[|entries| - 1]))
  }

  function RowSum(entries: seq<Entry>, rows: seq<Row>): real {
    if rows == [] then 0.0
    else
      var last := rows[|rows| - 1];
      RowSum(entries, rows[..|rows| - 1]) + if Known(entries, last.id) then 0.0 else CostOf(RowCost(last))
  }

  method IsKnown(entries: seq<Entry>, id: string) returns (known: bool)
    ensures known == Known(entries, id)
  {
    for i := 0 to |entries|
      invariant forall k :: 0 <= k < i ==> entries[k].id != id
    {
      if entries[i].id == id {
        return true;
      }
    }
    known := false;
  }

  method ChargeEntries(entries: seq<Entry>) returns (total: Option<real>)
    ensures total.Some? <==> EntriesOk(entries)
    ensures total.Some? ==> total.value == EntrySum(entries)
  {
    var sum := 0.0;
    for i := 0 to |entries|
      invariant forall k :: 0 <= k < i ==> EntryCost(entries[k]).Some?
      invariant sum == EntrySum(entries[..i])
    {
      var e := entries[i];
      assert e in entries && entries[..i + 1][..i] == entries[..i];
      if e.state == Other {
        return None;
      }
      var value := Number(if e.state == Running then e.reserved else e.charged);
      if value.None? {
        return None;
      }
      sum := sum + value.value;
    }
    assert entries[..|entries|] == entries;
    total := Some(sum);
  }

  /** The cost of one record beside the entries; absent when it is not acceptable. */
  method ChargeRow(entries: seq<Entry>, row: Row) returns (cost: Option<real>)
    ensures cost.Some? <==> RowOk(entries, row)
    ensures cost.Some? ==> cost.value == if Known(entries, row.id) then 0.0 else CostOf(RowCost(row))
  {
    if row.link || !row.readable {
      return None;
    }
    var known := IsKnown(entries, row.id);
    cost := Some(0.0);
    if !known {
      cost := Some(SUITE_SECONDS);
      if row.ended && row.wall.Present? {
        cost := Number(row.wall.seconds);
      }
    }
  }

  ghost predicate SeenIds(rows: seq<Row>, seen: set<string>) {
    forall id :: id in seen <==> id != "" && exists r :: r in rows && r.id == id
  }

  lemma SeenGrows(rows: seq<Row>, seen: set<string>, row: Row)
    requires SeenIds(rows, seen)
    ensures row.id == "" ==> SeenIds(rows + [row], seen)
    ensures row.id != "" ==> SeenIds(rows + [row], seen + {row.id})
    ensures row.id !in seen ==> (DistinctIds(rows) <==> DistinctIds(rows + [row]))
    ensures row.id in seen ==> !DistinctIds(rows + [row])
  {
    var all := rows + [row];
    assert forall r :: r in all <==> r in rows || r == row;
    if row.id in seen {
      var r :| r in rows && r.id == row.id;
      var k :| 0 <= k < |rows| && rows[k] == r;
      assert all[k].id == all[|rows|].id != "";
    } else if DistinctIds(all) {
      assert forall i, j :: 0 <= i < j < |rows| && rows[i].id == rows[j].id ==> all[i].id == all[j].id;
    } else {
      assert forall i :: 0 <= i < |rows| ==> rows[i] in rows;
    }
  }

  lemma PrefixDistinct(rows: seq<Row>, n: nat)
    requires n <= |rows| && DistinctIds(rows)
    ensures DistinctIds(rows[..n])
  {
    var part := rows[..n];
    assert forall i, j :: 0 <= i < j < n && part[i].id == part[j].id ==> rows[i].id == rows[j].id;
  }

  /** The seconds used so far: absent exactly when something found is not acceptable. */
  method Charged(entries: seq<Entry>, rows: seq<Row>) returns (total: Option<real>)
    ensures total.Some? <==> Acceptable(entries, rows)
    ensures total.Some? ==> total.value == EntrySum(entries) + RowSum(entries, rows)
  {
    hide EntriesOk, RowOk, DistinctIds, SeenIds, EntrySum, Known, RowCost;
    total := ChargeEntries(entries);
    if total.None? {
      return;
    }
    var sum := total.value;
    var seen: set<string> := {};
    assert SeenIds([], {}) && DistinctIds([]) by { NoneSeen(); }
    for i := 0 to |rows|
      invariant forall k :: 0 <= k < i ==> RowOk(entries, rows[k])
      invariant DistinctIds(rows[..i]) && SeenIds(rows[..i], seen)
      invariant sum == EntrySum(entries) + RowSum(entries, rows[..i])
    {
      var row := rows[i];
      assert row in rows && rows[..i + 1][..i] == rows[..i] && rows[..i + 1] == rows[..i] + [row];
      SeenGrows(rows[..i], seen, row);
      var cost := ChargeRow(entries, row);
      if cost.None? {
        return None;
      }
      if row.id != "" {
        if row.id in seen {
          if DistinctIds(rows) {
            PrefixDistinct(rows, i + 1);
          }
          return None;
        }
        seen := seen + {row.id};
      } else {
        EmptyIdUnseen(rows[..i], seen);
      }
      sum := sum + cost.value;
    }
    assert rows[..|rows|] == rows;
    total := Some(sum);
  }

  lemma NoneSeen()
    ensures SeenIds([], {}) && DistinctIds([])
  {
  }

  lemma EmptyIdUnseen(rows: seq<Row>, seen: set<string>)
    requires SeenIds(rows, seen)
    ensures "" !in seen
  {
  }

  // ----- the order in which files are found does not matter -----

  function Without<T>(s: seq<T>, i: nat): (r: seq<T>)
    requires i < |s|
    ensures |r| == |s| - 1
  {
    s[..i] + s[i + 1..]
  }

  lemma WithoutMultiset<T>(s: seq<T>, i: nat)
    requires i < |s|
    ensures multiset(Without(s, i)) == multiset(s) - multiset{s[i]}
  {
    assert s == s[..i] + [s[i]] + s[i + 1..];
  }

  lemma {:induction false} RowSumWithout(entries: seq<Entry>, rows: seq<Row>, i: nat)
    requires i < |rows|
    ensures RowSum(entries, rows) == RowSum(entries, Without(rows, i)) + RowSum(entries, [rows[i]])
  {
    var last := |rows| - 1;
    if i == last {
      assert Without(rows, i) == rows[..last];
    } else {
      RowSumWithout(entries, rows[..last], i);
      var rest := Without(rows, i);
      assert rest[..|rest| - 1] == Without(rows[..last], i);
      assert rows[..last][i] == rows[i];
    }
  }

  lemma {:induction false} SameRowsSameSum(entries: seq<Entry>, a: seq<Row>, b: seq<Row>)
    requires multiset(a) == multiset(b)
    ensures RowSum(entries, a) == RowSum(entries, b)
    decreases |a|
  {
    assert |a| == |multiset(a)| == |b|;
    if a != [] {
      var last := |a| - 1;
      assert a[last] in multiset(b);
      var i :| 0 <= i < |b| && b[i] == a[last];
      assert Without(a, last) == a[..last];
      WithoutMultiset(a, last);
      WithoutMultiset(b, i);
      SameRowsSameSum(entries, a[..last], Without(b, i));
      RowSumWithout(entries, b, i);
      RowSumWithout(entries, a, last);
    }
  }

  /** Two records of one listing stand at two places of any reordering of it. */
  lemma PairElsewhere(a: seq<Row>, b: seq<Row>, i: nat, j: nat) returns (k: nat, l: nat)
    requires multiset(a) == multiset(b) && i < j < |b|
    ensures k < |a| && l < |a| && k != l && a[k] == b[i] && a[l] == b[j]
  {
    assert b[i] in multiset(a);
    k :| 0 <= k < |a| && a[k] == b[i];
    WithoutMultiset(a, k);
    WithoutMultiset(b, i);
    assert Without(b, i)[j - 1] == b[j];
    assert b[j] in multiset(Without(a, k));
    l :| 0 <= l < |Without(a, k)| && Without(a, k)[l] == b[j];
    if l >= k {
      l := l + 1;
    }
  }

  lemma SameRowsDistinct(a: seq<Row>, b: seq<Row>)
    requires multiset(a) == multiset(b) && DistinctIds(a)
    ensures DistinctIds(b)
  {
    forall i, j | 0 <= i < j < |b| && b[i].id == b[j].id
      ensures b[i].id == ""
    {
      var k, l := PairElsewhere(a, b, i, j);
      assert if k < l then a[k].id == a[l].id else a[l].id == a[k].id;
    }
  }

  /** However the file system lists the records, they are accepted or refused alike and cost the same. */
  lemma ListingOrderIsIrrelevant(entries: seq<Entry>, a: seq<Row>, b: seq<Row>)
    requires multiset(a) == multiset(b)
    ensures Acceptable(entries, a) <==> Acceptable(entries, b)
    ensures RowSum(entries, a) == RowSum(entries, b)
  {
    SameRowsSameSum(entries, a, b);
    forall r
      ensures r in a <==> r in b
    {
      assert r in a <==> r in multiset(a);
      assert r in b <==> r in multiset(b);
    }
    if DistinctIds(a) {
      SameRowsDistinct(a, b);
    }
    if DistinctIds(b) {
      SameRowsDistinct(b, a);
    }
  }
}
