/**
 Finding the descendants of a supervised command in the process table, and signalling only those
 (`benchmark/regression/supervision.py`).

 The wrapper is a child subreaper: a descendant whose parent dies becomes the wrapper's child.  The
 kernel is modelled by forks, exits and reaps; each process carries where it really comes from,
 which the wrapper cannot see.
 */
module Supervision {
  import opened Basics

  type Pid = nat

  /** Descended from the command, from a child the wrapper already had, or from neither. */
  datatype Origin = Command | Kin | Outside

  datatype Process = Process(parent: Pid, start: nat, zombie: bool, origin: Origin, born: nat)

  type Table = map<Pid, Process>

  /** What the wrapper knows: its own pid, the children it had before, and when the command started. */
  datatype Scope = Scope(wrapper: Pid, previous: set<Pid>, start: nat)

  // ----- the closure -----

  predicate Closed(table: Table, x: set<Pid>) {
    forall p :: p in table && table[p].parent in x ==> p in x
  }

  /** `cur` is the least closed set around `base`. */
  ghost predicate Least(table: Table, base: set<Pid>, cur: set<Pid>) {
    base <= cur <= table.Keys && Closed(table, cur) && forall x: set<Pid> :: base <= x && Closed(table, x) ==> cur <= x
  }

  lemma LeastIsUnique(table: Table, base: set<Pid>, a: set<Pid>, b: set<Pid>)
    requires Least(table, base, a) && Least(table, base, b)
    ensures a == b
  {
  }

  /** Processes the wrapper already knows, unless their pid now belongs to something else. */
  function Remembered(table: Table, owned: map<Pid, nat>): set<Pid> {
    set p | p in table && p in owned && owned[p] == table[p].start
  }

  /** Children the wrapper has now but did not have before the command. */
  function Adopted(scope: Scope, table: Table): set<Pid> {
    set p | p in table && table[p].parent == scope.wrapper && p !in scope.previous && table[p].start >= scope.start
  }

  function Base(scope: Scope, table: Table, owned: map<Pid, nat>): set<Pid> {
    Remembered(table, owned) + Adopted(scope, table)
  }

  function Grow(table: Table, cur: set<Pid>): set<Pid> {
    cur + set p | p in table && table[p].parent in cur
  }

  function Closure(table: Table, cur: set<Pid>): set<Pid>
    requires cur <= table.Keys
    decreases |table.Keys - cur|
  {
    var next := Grow(table, cur);
    if next == cur then cur
    else
      FewerLeft(table.Keys, cur, next);
      Closure(table, next)
  }

  lemma FewerLeft(keys: set<Pid>, cur: set<Pid>, next: set<Pid>)
    requires cur < next <= keys
    ensures |keys - next| < |keys - cur|
  {
    var p :| p in next - cur;
    assert keys - cur == (keys - next) + (next - cur);
    assert |next - cur| > 0;
  }

  lemma {:induction false} ClosureIsLeast(table: Table, base: set<Pid>, cur: set<Pid>)
    requires base <= cur <= table.Keys
    requires forall x: set<Pid> :: base <= x && Closed(table, x) ==> cur <= x
    ensures Least(table, base, Closure(table, cur))
    decreases |table.Keys - cur|
  {
    var next := Grow(table, cur);
    if next == cur {
      forall p | p in table && table[p].parent in cur
        ensures p in cur
      {
        assert p in next;
      }
    } else {
      FewerLeft(table.Keys, cur, next);
      forall x: set<Pid> | base <= x && Closed(table, x)
        ensures next <= x
      {
      }
      ClosureIsLeast(table, base, next);
    }
  }

  /** The members of the scope in one snapshot. */
  function Members(scope: Scope, table: Table, owned: map<Pid, nat>): (r: set<Pid>)
    ensures r <= table.Keys
  {
    ClosureIsLeast(table, Base(scope, table, owned), Base(scope, table, owned));
    Closure(table, Base(scope, table, owned))
  }

  lemma MembersAreLeast(scope: Scope, table: Table, owned: map<Pid, nat>)
    ensures Least(table, Base(scope, table, owned), Members(scope, table, owned))
  {
    ClosureIsLeast(table, Base(scope, table, owned), Base(scope, table, owned));
  }

  function Remember(table: Table, owned: map<Pid, nat>, current: set<Pid>): map<Pid, nat>
    requires current <= table.Keys
  {
    owned + map p | p in current :: table[p].start
  }

  /** The scope object: the loops of `members`, over a table listed in any order. */
  class Supervisor {
    const scope: Scope
    var owned: map<Pid, nat>

    constructor (scope: Scope, child: Pid)
      ensures this.scope == scope && owned == map[child := scope.start]
    {
      this.scope := scope;
      owned := map[child := scope.start];
    }

    /** The order of the listing shows nowhere in the result. */
    method FindMembers(table: Table, listing: seq<Pid>) returns (current: set<Pid>)
      requires forall p :: p in listing <==> p in table
      modifies this
      ensures current == Members(scope, table, old(owned))
      ensures owned == Remember(table, old(owned), current)
    {
      current := {};
      for i := 0 to |listing|
        invariant current == set p | p in listing[..i] && p in Remembered(table, owned)
      {
        assert listing[..i + 1] == listing[..i] + [listing[i]];
        if listing[i] in owned && owned[listing[i]] == table[listing[i]].start {
          current := current + {listing[i]};
        }
      }
      assert current == Remembered(table, owned);
      for i := 0 to |listing|
        invariant current == Remembered(table, owned) + set p | p in listing[..i] && p in Adopted(scope, table)
      {
        assert listing[..i + 1] == listing[..i] + [listing[i]];
        var info := table[listing[i]];
        if info.parent == scope.wrapper && listing[i] !in scope.previous && info.start >= scope.start {
          current := current + {listing[i]};
        }
      }
      ghost var base := Base(scope, table, owned);
      assert current == base;
      var changed := true;
      while changed
        invariant base <= current <= table.Keys
        invariant forall x: set<Pid> :: base <= x && Closed(table, x) ==> current <= x
        invariant !changed ==> Closed(table, current)
        decreases table.Keys - current, changed
      {
        changed := false;
        ghost var before := current;
        for i := 0 to |listing|
          invariant before <= current <= table.Keys && (changed ==> before < current) &&
                    (!changed ==> current == before)
          invariant forall x: set<Pid> :: base <= x && Closed(table, x) ==> current <= x
          invariant !changed ==> forall k :: 0 <= k < i && table[listing[k]].parent in current ==> listing[k] in current
        {
          if listing[i] !in current && table[listing[i]].parent in current {
            current := current + {listing[i]};
            changed := true;
          }
        }
      }
      MembersAreLeast(scope, table, owned);
      LeastIsUnique(table, base, current, Members(scope, table, owned));
      owned := owned + map p | p in current :: table[p].start;
    }

    /** Signalling: each member is looked up once more just before its signal, in whatever the table
        is by then (`later[i]` when the i-th member's turn comes). */
    method Signal(table: Table, members: seq<Pid>, later: seq<Table>) returns (signalled: set<Pid>)
      requires |later| == |members| && forall p :: p in members ==> p in table
      ensures forall p :: p in signalled <==>
                exists i :: 0 <= i < |members| && members[i] == p && Signals(table, later[i], p)
    {
      signalled := {};
      for i := 0 to |members|
        invariant forall p :: p in signalled <==>
                    exists k :: 0 <= k < i && members[k] == p && Signals(table, later[k], p)
      {
        var p := members[i];
        if !table[p].zombie && p in later[i] && later[i][p].start == table[p].start {
          signalled := signalled + {p};
        }
      }
    }
  }

  predicate Signals(table: Table, now: Table, p: Pid) {
    p in table && !table[p].zombie && p in now && now[p].start == table[p].start
  }

  // ----- the kernel -----

  datatype System = System(table: Table, clock: nat, births: nat, owned: map<Pid, nat>)

  datatype Step = Fork(p: Pid, child: Pid) | Exit(p: Pid, heir: Pid) | Reap(p: Pid) | Tick | Observe

  /** `a` is an ancestor of `p`. */
  predicate Above(table: Table, a: Pid, p: Pid)
    requires p in table
    decreases table[p].born
  {
    var parent := table[p].parent;
    parent in table && table[parent].born < table[p].born && (parent == a || Above(table, a, parent))
  }

  /** Who may inherit the children of a dying process: for a descendant of the wrapper the wrapper, which
      reaps for its whole tree, or an ancestor of its own that does the same. */
  predicate MayInherit(scope: Scope, table: Table, p: Pid, heir: Pid)
    requires p in table && heir in table
  {
    if table[p].origin == Outside then heir != scope.wrapper && table[heir].origin == Outside
    else heir == scope.wrapper || (Above(table, heir, p) && table[heir].origin == table[p].origin)
  }

  /** What the kernel, and a wrapper that launches nothing else, can do.  A pid comes back only when no
      process has it or names it as its parent, and never within the clock tick in which the wrapper wrote
      it down. */
  predicate Possible(scope: Scope, s: System, step: Step) {
    match step
    case Fork(p, child) =>
      && p in s.table && !s.table[p].zombie && p != scope.wrapper
      && child !in s.table && child != scope.wrapper
      && (child in s.owned ==> s.owned[child] != s.clock)
      && forall q :: q in s.table ==> s.table[q].parent != child
    case Exit(p, heir) =>
      && p in s.table && !s.table[p].zombie && p != scope.wrapper
      && heir in s.table && !s.table[heir].zombie && heir != p && MayInherit(scope, s.table, p, heir)
    case Reap(p) => p in s.table && s.table[p].zombie
    case _ => true
  }

  function Reparent(table: Table, p: Pid, heir: Pid): Table {
    map q | q in table ::
      var x := if q == p then table[q].(zombie := true) else table[q];
      if x.parent == p then x.(parent := heir) else x
  }

  function Next(scope: Scope, s: System, step: Step): System {
    if !Possible(scope, s, step) then s
    else
      match step
      case Fork(p, child) =>
        s.(table := s.table[child := Process(p, s.clock, false, s.table[p].origin, s.births)], births := s.births + 1)
      case Exit(p, heir) => s.(table := Reparent(s.table, p, heir))
      case Reap(p) => s.(table := s.table - {p})
      case Tick => s.(clock := s.clock + 1)
      case Observe => s.(owned := Remember(s.table, s.owned, Members(scope, s.table, s.owned)))
  }

  function After(scope: Scope, s: System, steps: seq<Step>): System {
    if steps == [] then s else Next(scope, After(scope, s, steps[..|steps| - 1]), steps[|steps| - 1])
  }

  /** The processes that really descend from the command. */
  function Descendants(table: Table): set<Pid> {
    set p | p in table && table[p].origin == Command
  }

  // ----- what the kernel keeps, whatever the wrapper believes -----

  /** A process of the wrapper's tree has a living parent of its own kind, or is the wrapper's child. */
  predicate Rooted(scope: Scope, table: Table, p: Pid)
    requires p in table
  {
    || table[p].parent == scope.wrapper
    || (table[p].parent in table && !table[table[p].parent].zombie &&
        table[table[p].parent].origin == table[p].origin &&
        table[table[p].parent].born < table[p].born)
  }

  predicate ProcessOk(scope: Scope, table: Table, p: Pid)
    requires p in table
  {
    match table[p].origin
    case Command => table[p].start >= scope.start && p != scope.wrapper && Rooted(scope, table, p)
    case Kin => p != scope.wrapper && Rooted(scope, table, p)
    case Outside =>
      table[p].parent != scope.wrapper && (table[p].parent in table ==> table[table[p].parent].origin == Outside)
  }

  predicate KernelInv(scope: Scope, s: System) {
    && scope.wrapper in s.table && s.table[scope.wrapper].origin == Outside && !s.table[scope.wrapper].zombie
    && (forall p :: p in s.table ==> ProcessOk(scope, s.table, p))
    && (forall p :: p in s.table ==> s.table[p].born < s.births && s.table[p].start <= s.clock)
    && (forall p :: p in s.owned ==> s.owned[p] <= s.clock)
    && (forall p :: p in s.owned && p in s.table ==> s.owned[p] <= s.table[p].start)
    && scope.start <= s.clock
  }

  lemma {:induction false} AboveIsOlder(table: Table, a: Pid, p: Pid)
    requires p in table && Above(table, a, p)
    ensures a in table && table[a].born < table[p].born
    decreases table[p].born
  {
    if table[p].parent != a {
      AboveIsOlder(table, a, table[p].parent);
    }
  }

  lemma ForkKernel(scope: Scope, s: System, p: Pid, child: Pid)
    requires KernelInv(scope, s) && Possible(scope, s, Fork(p, child))
    ensures KernelInv(scope, Next(scope, s, Fork(p, child)))
  {
    var t := Next(scope, s, Fork(p, child));
    forall q | q in t.table
      ensures ProcessOk(scope, t.table, q)
    {
      if q != child {
        assert t.table[q] == s.table[q] && ProcessOk(scope, s.table, q);
      } else {
        assert ProcessOk(scope, s.table, p);
      }
    }
  }

  lemma ExitKernel(scope: Scope, s: System, p: Pid, heir: Pid)
    requires KernelInv(scope, s) && Possible(scope, s, Exit(p, heir))
    ensures KernelInv(scope, Next(scope, s, Exit(p, heir)))
  {
    if s.table[p].origin != Outside && heir != scope.wrapper {
      AboveIsOlder(s.table, heir, p);
    }
    hide Above, ProcessOk;
    var t := Next(scope, s, Exit(p, heir));
    forall q | q in t.table
      ensures ProcessOk(scope, t.table, q)
    {
      assert ProcessOk(scope, s.table, q) && ProcessOk(scope, s.table, p);
      ReparentedOk(scope, s.table, p, heir, q);
    }
  }

  lemma ReparentedOk(scope: Scope, table: Table, p: Pid, heir: Pid, q: Pid)
    requires p in table && heir in table && q in table && p != scope.wrapper && heir != p && !table[heir].zombie
    requires ProcessOk(scope, table, p) && ProcessOk(scope, table, q) && !table[p].zombie
    requires table[p].origin == Outside ==> heir != scope.wrapper && table[heir].origin == Outside
    requires table[p].origin != Outside && heir != scope.wrapper ==>
               table[heir].origin == table[p].origin && table[heir].born < table[p].born
    requires scope.wrapper in table && table[scope.wrapper].origin == Outside
    ensures ProcessOk(scope, Reparent(table, p, heir), q)
  {
  }

  lemma ReapKernel(scope: Scope, s: System, p: Pid)
    requires KernelInv(scope, s) && Possible(scope, s, Reap(p))
    ensures KernelInv(scope, Next(scope, s, Reap(p)))
  {
    var t := Next(scope, s, Reap(p));
    forall q | q in t.table
      ensures ProcessOk(scope, t.table, q)
    {
      assert q in s.table && t.table[q] == s.table[q] && ProcessOk(scope, s.table, q);
    }
  }

  /** Every step of the kernel and every look of the wrapper keeps the kernel invariant. */
  lemma StepKernel(scope: Scope, s: System, step: Step)
    requires KernelInv(scope, s)
    ensures KernelInv(scope, Next(scope, s, step))
  {
    hide ProcessOk;
    if Possible(scope, s, step) {
      match step {
        case Fork(p, child) => ForkKernel(scope, s, p, child);
        case Exit(p, heir) => ExitKernel(scope, s, p, heir);
        case Reap(p) => ReapKernel(scope, s, p);
        case Tick =>
        case Observe =>
      }
    }
  }

  // ----- what the wrapper believes -----

  /** Every identity the wrapper wrote down that is still in the table is a descendant. */
  predicate OwnedOk(s: System) {
    forall p :: p in Remembered(s.table, s.owned) ==> s.table[p].origin == Command
  }

  predicate Inv(scope: Scope, s: System) {
    KernelInv(scope, s) && OwnedOk(s)
  }

  /** A process that is not the command's but looks as if it were: a new child of the wrapper that the
      wrapper did not have before and that is not older than the command. */
  predicate Stray(scope: Scope, table: Table) {
    exists p :: p in Adopted(scope, table) && table[p].origin != Command
  }

  predicate Exact(scope: Scope, s: System) {
    Members(scope, s.table, s.owned) == Descendants(s.table)
  }

  /** Every member is a descendant. */
  predicate Sound(scope: Scope, s: System) {
    Members(scope, s.table, s.owned) <= Descendants(s.table)
  }

  /** A descendant that came to the wrapper under the pid of an earlier child, and was not seen before. */
  predicate Hidden(scope: Scope, s: System, p: Pid) {
    && p in s.table && s.table[p].origin == Command && s.table[p].parent == scope.wrapper
    && p in scope.previous && p !in Remembered(s.table, s.owned)
  }

  predicate AnyHidden(scope: Scope, s: System) {
    exists p :: p in s.table && Hidden(scope, s, p)
  }

  lemma DescendantsAreClosed(scope: Scope, s: System)
    requires Inv(scope, s) && !Stray(scope, s.table)
    ensures Base(scope, s.table, s.owned) <= Descendants(s.table)
    ensures Closed(s.table, Descendants(s.table))
  {
    forall p | p in s.table && s.table[p].parent in Descendants(s.table)
      ensures p in Descendants(s.table)
    {
      assert ProcessOk(scope, s.table, p);
    }
  }

  lemma {:induction false} DescendantIsMember(scope: Scope, s: System, p: Pid)
    requires KernelInv(scope, s) && !AnyHidden(scope, s) && p in Descendants(s.table)
    ensures p in Members(scope, s.table, s.owned)
    decreases s.table[p].born
  {
    MembersAreLeast(scope, s.table, s.owned);
    assert ProcessOk(scope, s.table, p);
    if s.table[p].parent == scope.wrapper {
      assert !Hidden(scope, s, p);
      assert p in Base(scope, s.table, s.owned);
    } else {
      DescendantIsMember(scope, s, s.table[p].parent);
    }
  }

  /** With sound beliefs the members are descendants if and only if there is no stray. */
  lemma SoundIff(scope: Scope, s: System)
    requires Inv(scope, s)
    ensures Sound(scope, s) <==> !Stray(scope, s.table)
  {
    MembersAreLeast(scope, s.table, s.owned);
    if Stray(scope, s.table) {
      var p :| p in Adopted(scope, s.table) && s.table[p].origin != Command;
      assert p in Members(scope, s.table, s.owned) && p !in Descendants(s.table);
    } else {
      DescendantsAreClosed(scope, s);
    }
  }

  /** What no member is the parent of, and no base, is no member. */
  lemma UnreachedIsNoMember(scope: Scope, s: System, p: Pid)
    requires p in s.table && p !in Base(scope, s.table, s.owned)
    requires s.table[p].parent !in Members(scope, s.table, s.owned)
    ensures p !in Members(scope, s.table, s.owned)
  {
    MembersAreLeast(scope, s.table, s.owned);
    var rest := Members(scope, s.table, s.owned) - {p};
    assert Closed(s.table, rest);
  }

  /** No descendant is missed if none is hidden; and if every member is a descendant, only then. */
  lemma CompleteIff(scope: Scope, s: System)
    requires KernelInv(scope, s)
    ensures !AnyHidden(scope, s) ==> Descendants(s.table) <= Members(scope, s.table, s.owned)
    ensures Sound(scope, s) ==> (Exact(scope, s) <==> !AnyHidden(scope, s))
  {
    if AnyHidden(scope, s) {
      var p :| p in s.table && Hidden(scope, s, p);
      if Sound(scope, s) {
        UnreachedIsNoMember(scope, s, p);
        assert p in Descendants(s.table);
      }
    } else {
      forall p | p in Descendants(s.table)
        ensures p in Members(scope, s.table, s.owned)
      {
        DescendantIsMember(scope, s, p);
      }
    }
  }

  lemma BeliefsStay(scope: Scope, s: System, step: Step)
    requires Inv(scope, s) && Sound(scope, s)
    ensures OwnedOk(Next(scope, s, step))
  {
    hide ProcessOk, Above, Members;
    if Possible(scope, s, step) {
      var t := Next(scope, s, step);
      forall p | p in Remembered(t.table, t.owned)
        ensures t.table[p].origin == Command
      {
        match step {
          case Fork(_, child) =>
            assert p != child ==> p in Remembered(s.table, s.owned);
          case Exit(q, heir) => assert p in Remembered(s.table, s.owned);
          case Reap(q) => assert p in Remembered(s.table, s.owned);
          case Tick => assert p in Remembered(s.table, s.owned);
          case Observe =>
            if p !in Members(scope, s.table, s.owned) {
              assert p in Remembered(s.table, s.owned);
            } else {
              assert p in Descendants(s.table);
            }
        }
      }
    }
  }

  // ----- runs -----

  /** The wrapper's earlier descendants are older than the command and start nothing new. */
  predicate KinAreOld(scope: Scope, table: Table) {
    forall p :: p in table && table[p].origin == Kin ==> table[p].start < scope.start
  }

  predicate KinRest(scope: Scope, s: System, steps: seq<Step>) {
    forall i :: 0 <= i < |steps| && steps[i].Fork? ==>
      var t := After(scope, s, steps[..i]).table; steps[i].p in t ==> t[steps[i].p].origin != Kin
  }

  lemma OldKinAreNoStrays(scope: Scope, s: System)
    requires KernelInv(scope, s) && KinAreOld(scope, s.table)
    ensures !Stray(scope, s.table)
  {
    forall p | p in Adopted(scope, s.table)
      ensures s.table[p].origin == Command
    {
      assert ProcessOk(scope, s.table, p);
    }
  }

  lemma KinStayOld(scope: Scope, s: System, step: Step)
    requires KinAreOld(scope, s.table)
    requires step.Fork? && step.p in s.table ==> s.table[step.p].origin != Kin
    ensures KinAreOld(scope, Next(scope, s, step).table)
  {
    hide Above;
  }

  lemma {:induction false} RunInv(scope: Scope, s: System, steps: seq<Step>)
    requires Inv(scope, s) && KinAreOld(scope, s.table) && KinRest(scope, s, steps)
    ensures Inv(scope, After(scope, s, steps)) && KinAreOld(scope, After(scope, s, steps).table)
  {
    hide KernelInv, OwnedOk, KinAreOld, Next, Sound;
    if steps != [] {
      var n := |steps| - 1;
      var before := steps[..n];
      assert KinRest(scope, s, before) by {
        assert forall i :: 0 <= i < n ==> before[..i] == steps[..i];
      }
      RunInv(scope, s, before);
      var t := After(scope, s, before);
      OldKinAreNoStrays(scope, t);
      SoundIff(scope, t);
      StepKernel(scope, t, steps[n]);
      BeliefsStay(scope, t, steps[n]);
      KinStayOld(scope, t, steps[n]);
    }
  }

  /** No fork hands out the pid of an earlier child. */
  predicate FreshPids(scope: Scope, steps: seq<Step>) {
    forall i :: 0 <= i < |steps| && steps[i].Fork? ==> steps[i].child !in scope.previous
  }

  predicate NoneTookOver(scope: Scope, table: Table) {
    forall p :: p in table && table[p].origin == Command ==> p !in scope.previous
  }

  lemma {:induction false} FreshRun(scope: Scope, s: System, steps: seq<Step>)
    requires NoneTookOver(scope, s.table) && FreshPids(scope, steps)
    ensures NoneTookOver(scope, After(scope, s, steps).table) && !AnyHidden(scope, After(scope, s, steps))
  {
    hide Possible, Members;
    if steps != [] {
      FreshRun(scope, s, steps[..|steps| - 1]);
    }
  }

  /** Over every run in which the earlier descendants rest, each look at the table finds only descendants
      of the command, whatever changed session, double-forked, lost its parent, died, or left its pid to
      another process in between.  It finds all of them if and only if none is hidden, and none is if no
      pid of an earlier child was given out again. */
  lemma MembersAreExactlyTheDescendants(scope: Scope, s: System, steps: seq<Step>)
    requires Inv(scope, s) && KinAreOld(scope, s.table) && KinRest(scope, s, steps)
    ensures var t := After(scope, s, steps);
            && Sound(scope, t) && (Exact(scope, t) <==> !AnyHidden(scope, t))
            && (NoneTookOver(scope, s.table) && FreshPids(scope, steps) ==> Exact(scope, t))
  {
    hide KernelInv, OwnedOk, KinAreOld, KinRest, Exact, Sound, AnyHidden, NoneTookOver, FreshPids;
    RunInv(scope, s, steps);
    var t := After(scope, s, steps);
    OldKinAreNoStrays(scope, t);
    SoundIff(scope, t);
    CompleteIff(scope, t);
    if NoneTookOver(scope, s.table) && FreshPids(scope, steps) {
      FreshRun(scope, s, steps);
    }
  }

  // ----- signals -----

  lemma {:induction false} KernelRun(scope: Scope, s: System, steps: seq<Step>)
    requires KernelInv(scope, s)
    ensures KernelInv(scope, After(scope, s, steps))
  {
    hide KernelInv, Next;
    if steps != [] {
      KernelRun(scope, s, steps[..|steps| - 1]);
      StepKernel(scope, After(scope, s, steps[..|steps| - 1]), steps[|steps| - 1]);
    }
  }

  /** What the wrapper wrote down of a pid is only ever replaced by something later. */
  lemma {:induction false} OwnedGrows(scope: Scope, s: System, first: seq<Step>, more: seq<Step>, p: Pid)
    requires KernelInv(scope, s) && p in After(scope, s, first).owned
    ensures var a, b := After(scope, s, first).owned, After(scope, s, first + more).owned;
            p in b && a[p] <= b[p]
  {
    hide KernelInv, Members, Above;
    if more == [] {
      assert first + more == first;
    } else {
      var less := first + more[..|more| - 1];
      OwnedGrows(scope, s, first, more[..|more| - 1], p);
      assert (first + more)[..|first + more| - 1] == less;
      KernelRun(scope, s, less);
      if p in After(scope, s, less).table {
        OwnedIsOlder(scope, After(scope, s, less), p);
      }
    }
  }

  lemma OwnedIsOlder(scope: Scope, s: System, p: Pid)
    requires KernelInv(scope, s) && p in s.owned && p in s.table
    ensures s.owned[p] <= s.table[p].start
  {
  }

  lemma ObservedIsOwned(scope: Scope, s: System, listed: seq<Step>, p: Pid)
    requires var t := After(scope, s, listed); p in Members(scope, t.table, t.owned)
    ensures var t := After(scope, s, listed); p in t.table
    ensures var o := After(scope, s, listed + [Observe]).owned; p in o && o[p] == After(scope, s, listed).table[p].start
  {
    hide Members;
    assert (listed + [Observe])[..|listed|] == listed;
  }

  /** A signal reaches only a descendant of the command, even if the table moved on since the members were
      listed and the pid has another owner by now: that one has another start time. */
  lemma OnlyDescendantsAreSignalled(scope: Scope, s: System, listed: seq<Step>, moved: seq<Step>, p: Pid)
    requires Inv(scope, s) && KinAreOld(scope, s.table) && KinRest(scope, s, listed + [Observe] + moved)
    requires var t := After(scope, s, listed);
             p in Members(scope, t.table, t.owned) &&
             Signals(t.table, After(scope, s, listed + [Observe] + moved).table, p)
    ensures p in Descendants(After(scope, s, listed + [Observe] + moved).table)
  {
    hide KernelInv, KinAreOld, KinRest, Members;
    RunInv(scope, s, listed + [Observe] + moved);
    ObservedIsOwned(scope, s, listed, p);
    OwnedGrows(scope, s, listed + [Observe], moved, p);
    var now := After(scope, s, listed + [Observe] + moved);
    OwnedIsOlder(scope, now, p);
    assert p in Remembered(now.table, now.owned);
  }

  /** When the cleanup reports everything reaped, no descendant of the command is left if and only if none
      is hidden, and so if no pid of an earlier child was given out again; this needs nothing else of the
      earlier children. */
  lemma ReapedMeansGone(scope: Scope, s: System, steps: seq<Step>)
    requires KernelInv(scope, s)
    requires var t := After(scope, s, steps); Members(scope, t.table, t.owned) == {}
    ensures var t := After(scope, s, steps);
            && (Descendants(t.table) == {} <==> !AnyHidden(scope, t))
            && (NoneTookOver(scope, s.table) && FreshPids(scope, steps) ==> Descendants(t.table) == {})
  {
    hide KernelInv, NoneTookOver, FreshPids;
    KernelRun(scope, s, steps);
    var t := After(scope, s, steps);
    CompleteIff(scope, t);
    if AnyHidden(scope, t) {
      var p :| p in t.table && Hidden(scope, t, p);
      assert p in Descendants(t.table);
    }
    if NoneTookOver(scope, s.table) && FreshPids(scope, steps) {
      FreshRun(scope, s, steps);
    }
  }

  // ----- when every look of every run is exact -----

  /** The launch: the children of the wrapper are the command and those it noted before, which are its own
      earlier ones, and it has written down nothing but the command. */
  predicate Launch(scope: Scope, s: System) {
    && Inv(scope, s)
    && (forall p :: p in s.table && s.table[p].parent == scope.wrapper ==>
          p in scope.previous || s.table[p].origin == Command)
    && (forall p :: p in scope.previous && p in s.table ==>
          s.table[p].origin == Kin && s.table[p].parent == scope.wrapper)
    && (forall p :: p in s.table && s.table[p].parent in scope.previous ==> s.table[p].parent in s.table)
    && scope.wrapper !in scope.previous
  }

  /** Some child that the wrapper had before is still running. */
  predicate EarlierChildAlive(scope: Scope, s: System) {
    exists p :: p in scope.previous && p in s.table && !s.table[p].zombie
  }

  /** All that is left of the earlier children are zombies among those noted before. */
  predicate KinAreDead(scope: Scope, table: Table) {
    forall p :: p in table && table[p].origin == Kin ==>
      table[p].zombie && table[p].parent == scope.wrapper && p in scope.previous
  }

  /** With no earlier child running at launch there is no earlier descendant left at all. */
  lemma {:induction false} DeadBranch(scope: Scope, s: System, p: Pid)
    requires Launch(scope, s) && !EarlierChildAlive(scope, s) && p in s.table && s.table[p].origin == Kin
    ensures s.table[p].zombie && s.table[p].parent == scope.wrapper && p in scope.previous
    decreases s.table[p].born
  {
    assert ProcessOk(scope, s.table, p);
    if s.table[p].parent != scope.wrapper {
      DeadBranch(scope, s, s.table[p].parent);
    }
  }

  lemma DeadStayDead(scope: Scope, s: System, step: Step)
    requires KernelInv(scope, s) && KinAreDead(scope, s.table)
    ensures KinAreDead(scope, Next(scope, s, step).table)
  {
    hide Above, ProcessOk, Members;
  }

  lemma DeadAreNoStrays(scope: Scope, s: System)
    requires KernelInv(scope, s) && KinAreDead(scope, s.table)
    ensures !Stray(scope, s.table)
  {
    forall p | p in Adopted(scope, s.table)
      ensures s.table[p].origin == Command
    {
      assert ProcessOk(scope, s.table, p);
    }
  }

  lemma {:induction false} DeadRun(scope: Scope, s: System, steps: seq<Step>)
    requires Inv(scope, s) && KinAreDead(scope, s.table)
    ensures Inv(scope, After(scope, s, steps)) && KinAreDead(scope, After(scope, s, steps).table)
    ensures Sound(scope, After(scope, s, steps))
  {
    hide KernelInv, OwnedOk, KinAreDead, Next, Sound;
    if steps != [] {
      var before, step := steps[..|steps| - 1], steps[|steps| - 1];
      DeadRun(scope, s, before);
      var t := After(scope, s, before);
      StepKernel(scope, t, step);
      BeliefsStay(scope, t, step);
      DeadStayDead(scope, t, step);
    }
    DeadAreNoStrays(scope, After(scope, s, steps));
    SoundIff(scope, After(scope, s, steps));
  }

  /** Something of the command is running. */
  predicate CommandAlive(table: Table) {
    exists p :: p in table && table[p].origin == Command && !table[p].zombie
  }

  /** Nobody is left to take over the pid of an earlier child, or there was none. */
  predicate NoTakeover(scope: Scope, table: Table) {
    NoneTookOver(scope, table) && (scope.previous == {} || !CommandAlive(table))
  }

  lemma {:induction false} TakeoverRun(scope: Scope, s: System, steps: seq<Step>)
    requires NoTakeover(scope, s.table)
    ensures NoTakeover(scope, After(scope, s, steps).table) && !AnyHidden(scope, After(scope, s, steps))
  {
    hide Members, Above;
    if steps != [] {
      TakeoverRun(scope, s, steps[..|steps| - 1]);
      TakeoverStep(scope, After(scope, s, steps[..|steps| - 1]), steps[|steps| - 1]);
    }
  }

  lemma TakeoverStep(scope: Scope, s: System, step: Step)
    requires NoTakeover(scope, s.table)
    ensures NoTakeover(scope, Next(scope, s, step).table)
  {
    hide Members, Above;
    var t := Next(scope, s, step).table;
    if scope.previous != {} {
      forall p | p in t && t[p].origin == Command
        ensures p in s.table && s.table[p].origin == Command && s.table[p].zombie && t[p].zombie
      {
      }
    }
  }

  ghost function Highest(pids: set<Pid>): (n: nat)
    ensures forall p :: p in pids ==> p <= n
    decreases |pids|
  {
    if pids == {} then 0
    else
      var p :| p in pids;
      assert pids == (pids - {p}) + {p};
      Max(p, Highest(pids - {p}))
  }

  /** A pid that nothing has ever used. */
  ghost function Unused(scope: Scope, s: System): (n: nat)
    ensures n !in s.table && n !in s.owned && n !in scope.previous && n != scope.wrapper
    ensures forall q :: q in s.table ==> s.table[q].parent != n
  {
    var parents := set q | q in s.table :: s.table[q].parent;
    assert forall q :: q in s.table ==> s.table[q].parent in parents;
    Highest(s.table.Keys + s.owned.Keys + scope.previous + {scope.wrapper} + parents) + 1
  }

  lemma AfterTwo(scope: Scope, s: System, a: Step, b: Step)
    ensures After(scope, s, [a, b]) == Next(scope, Next(scope, s, a), b)
  {
    hide Next;
    assert [a, b][..1] == [a] && [a][..0] == [];
    assert After(scope, s, [a]) == Next(scope, s, a);
  }

  lemma UnusedForks(scope: Scope, s: System, k: Pid)
    requires Launch(scope, s) && k in scope.previous && k in s.table && !s.table[k].zombie
    ensures Possible(scope, s, Fork(k, Unused(scope, s)))
    ensures Possible(scope, Next(scope, s, Fork(k, Unused(scope, s))), Exit(k, scope.wrapper))
  {
    hide Above, ProcessOk;
  }

  /** An earlier child that is alive at launch can fork and die, and its orphan is taken for a descendant. */
  lemma AliveChildMisleads(scope: Scope, s: System, k: Pid)
    requires Launch(scope, s) && k in scope.previous && k in s.table && !s.table[k].zombie
    ensures !Exact(scope, After(scope, s, [Fork(k, Unused(scope, s)), Exit(k, scope.wrapper)]))
  {
    hide Above, ProcessOk, Possible;
    var orphan := Unused(scope, s);
    AfterTwo(scope, s, Fork(k, orphan), Exit(k, scope.wrapper));
    UnusedForks(scope, s, k);
    var t := Next(scope, Next(scope, s, Fork(k, orphan)), Exit(k, scope.wrapper));
    assert orphan in Adopted(scope, t.table) && t.table[orphan].origin == Kin;
    hide Next, Launch;
    MembersAreLeast(scope, t.table, t.owned);
    assert orphan in Members(scope, t.table, t.owned) && orphan !in Descendants(t.table);
  }

  lemma AfterFour(scope: Scope, s: System, a: Step, b: Step, c: Step, d: Step)
    ensures After(scope, s, [a, b, c, d]) == Next(scope, Next(scope, Next(scope, Next(scope, s, a), b), c), d)
  {
    hide Next;
    var steps := [a, b, c, d];
    assert steps[..3] == [a, b, c] && [a, b, c][..2] == [a, b] && [a, b][..1] == [a] && [a][..0] == [];
    assert After(scope, s, [a]) == Next(scope, s, a);
    assert After(scope, s, [a, b]) == Next(scope, Next(scope, s, a), b);
    assert After(scope, s, [a, b, c]) == Next(scope, Next(scope, Next(scope, s, a), b), c);
  }

  /** Once its zombie is reaped nobody has the pid of an earlier child, or has it for a parent. */
  lemma PidIsFree(scope: Scope, s: System, k: Pid)
    requires Launch(scope, s) && k in scope.previous && (k in s.table ==> s.table[k].zombie)
    ensures var t := Next(scope, Next(scope, s, Tick), Reap(k));
            && t == s.(table := s.table - {k}, clock := s.clock + 1)
            && forall q :: q in t.table ==> t.table[q].parent != k
  {
    forall q | q in s.table && q != k
      ensures s.table[q].parent != k
    {
      assert ProcessOk(scope, s.table, q);
    }
  }

  /** A descendant that takes over the pid of an earlier child and loses its parent is missed. */
  lemma TakeoverMisleads(scope: Scope, s: System, k: Pid, c: Pid)
    requires Launch(scope, s) && !EarlierChildAlive(scope, s) && k in scope.previous
    requires c in s.table && s.table[c].origin == Command && !s.table[c].zombie
    ensures !Exact(scope, After(scope, s, [Tick, Reap(k), Fork(c, k), Exit(c, scope.wrapper)]))
  {
    hide Above, Exact, Sound;
    var steps := [Tick, Reap(k), Fork(c, k), Exit(c, scope.wrapper)];
    AfterFour(scope, s, Tick, Reap(k), Fork(c, k), Exit(c, scope.wrapper));
    PidIsFree(scope, s, k);
    var reaped := Next(scope, Next(scope, s, Tick), Reap(k));
    assert ProcessOk(scope, s.table, c);
    assert Possible(scope, reaped, Fork(c, k));
    var forked := Next(scope, reaped, Fork(c, k));
    assert Possible(scope, forked, Exit(c, scope.wrapper));
    var t := Next(scope, forked, Exit(c, scope.wrapper));
    assert Hidden(scope, t, k);
    KinDeadAtLaunch(scope, s);
    hide Next, Launch;
    DeadRun(scope, s, steps);
    CompleteIff(scope, t);
  }

  lemma KinDeadAtLaunch(scope: Scope, s: System)
    requires Launch(scope, s) && !EarlierChildAlive(scope, s)
    ensures KinAreDead(scope, s.table)
  {
    forall p | p in s.table && s.table[p].origin == Kin
      ensures s.table[p].zombie && s.table[p].parent == scope.wrapper && p in scope.previous
    {
      DeadBranch(scope, s, p);
    }
  }

  /** From a launch, every look of every run finds exactly the descendants of the command if and only if no
      child the wrapper had before is still running, and there was none before or nothing of the command
      is running either.  For a command that is running: if and only if the wrapper had no child before. */
  lemma AlwaysExactIff(scope: Scope, s: System)
    requires Launch(scope, s)
    ensures (forall steps: seq<Step> :: Exact(scope, After(scope, s, steps))) <==>
            !EarlierChildAlive(scope, s) && (scope.previous == {} || !CommandAlive(s.table))
    ensures CommandAlive(s.table) ==>
              ((forall steps: seq<Step> :: Exact(scope, After(scope, s, steps))) <==> scope.previous == {})
  {
    hide Exact, Sound, Launch;
    if EarlierChildAlive(scope, s) {
      var k :| k in scope.previous && k in s.table && !s.table[k].zombie;
      AliveChildMisleads(scope, s, k);
    } else if scope.previous != {} && CommandAlive(s.table) {
      var k, c :| k in scope.previous && c in s.table && s.table[c].origin == Command && !s.table[c].zombie;
      TakeoverMisleads(scope, s, k, c);
    } else {
      LaunchIsQuiet(scope, s);
      forall steps: seq<Step>
        ensures Exact(scope, After(scope, s, steps))
      {
        DeadRun(scope, s, steps);
        TakeoverRun(scope, s, steps);
        CompleteIff(scope, After(scope, s, steps));
      }
    }
  }

  /** Over the runs in which no pid of an earlier child is given out again, every look is exact if and only
      if no earlier child was still running when the command was launched. */
  lemma FreshExactIff(scope: Scope, s: System)
    requires Launch(scope, s)
    ensures (forall steps: seq<Step> :: FreshPids(scope, steps) ==> Exact(scope, After(scope, s, steps))) <==>
            !EarlierChildAlive(scope, s)
  {
    hide Exact, Sound;
    if EarlierChildAlive(scope, s) {
      var k :| k in scope.previous && k in s.table && !s.table[k].zombie;
      AliveChildMisleads(scope, s, k);
      assert FreshPids(scope, [Fork(k, Unused(scope, s)), Exit(k, scope.wrapper)]);
    } else {
      KinDeadAtLaunch(scope, s);
      assert NoneTookOver(scope, s.table);
      hide Launch, NoneTookOver, FreshPids;
      forall steps: seq<Step> | FreshPids(scope, steps)
        ensures Exact(scope, After(scope, s, steps))
      {
        DeadRun(scope, s, steps);
        FreshRun(scope, s, steps);
        CompleteIff(scope, After(scope, s, steps));
      }
    }
  }

  lemma LaunchIsQuiet(scope: Scope, s: System)
    requires Launch(scope, s) && !EarlierChildAlive(scope, s)
    requires scope.previous == {} || !CommandAlive(s.table)
    ensures Inv(scope, s) && KinAreDead(scope, s.table) && NoTakeover(scope, s.table)
  {
    KinDeadAtLaunch(scope, s);
  }

  /** There are launches of both kinds: alone, and with an earlier child running. */
  lemma LoneLaunch()
    ensures Launch(Scope(10, {}, 7), ALONE) && !EarlierChildAlive(Scope(10, {}, 7), ALONE)
  {
  }

  lemma AccompaniedLaunch()
    ensures Launch(Scope(10, {11}, 7), ACCOMPANIED) && EarlierChildAlive(Scope(10, {11}, 7), ACCOMPANIED)
  {
    assert 11 in ACCOMPANIED.table;
  }

  /** The wrapper is 10, the command 12, an earlier child 11. */
  const ALONE := System(
    map[10 := Process(0, 1, false, Outside, 0), 12 := Process(10, 7, false, Command, 2)], 7, 3, map[12 := 7])

  const ACCOMPANIED := System(
    map[10 := Process(0, 1, false, Outside, 0), 11 := Process(10, 2, false, Kin, 1),
        12 := Process(10, 7, false, Command, 2)], 7, 3, map[12 := 7])
}
