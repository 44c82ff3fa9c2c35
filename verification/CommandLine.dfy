/** The command line over the configuration file over the defaults (`app/ServerConfig.cpp`). */
module CommandLine {
  import opened Basics
  import opened ServerConfig

  const DEFAULTS := Options(0, "", 2, false, false, 5000, 10000, 30000, 15000, 128, 67108864, 67108864, None)

  // ----- one option -----

  /** What an option's name means: a field, the configuration file, or `--no-admin`. */
  datatype Name = Field(key: Key, negative: bool) | ConfigFile

  function Underscored(s: string): string {
    seq(|s|, i requires 0 <= i < |s| => if s[i] == '-' then '_' else s[i])
  }

  const NO_ADMIN := "no_admin"
  const NO_ACCESS_LOG := "no_access_log"
  const NO_METRICS := "no_metrics_on_exit"

  /** The name of an argument, if it is one: two dashes and no underscore. */
  function NameOf(argument: string): Option<Name> {
    if !("--" <= argument) || '_' in argument then None
    else
      var key := Underscored(argument[2..]);
      if key == NO_ADMIN then Some(Field(AdminPort, true))
      else if key == NO_ACCESS_LOG then Some(Field(AccessLog, true))
      else if key == NO_METRICS then Some(Field(MetricsOnExit, true))
      else if "no_" <= key || key == "help" then None
      else if key == "config" then Some(ConfigFile)
      else Some(Field(KeyOf(key), false))
  }

  /** Options that stand alone; every other takes the next argument as its value, whatever it is. */
  predicate Alone(name: Name) {
    name.Field? && (name.negative || name.key == AccessLog || name.key == MetricsOnExit)
  }

  function Width(argument: string): nat {
    if NameOf(argument).None? || Alone(NameOf(argument).value) then 1 else 2
  }

  predicate Digits(s: string) {
    forall i :: 0 <= i < |s| ==> '0' <= s[i] <= '9'
  }

  function Number(s: string): int {
    if s == "" then 0 else 10 * Number(s[..|s| - 1]) + (s[|s| - 1] as int - '0' as int)
  }

  lemma {:induction false} NumberIsNatural(s: string)
    requires Digits(s)
    ensures Number(s) >= 0
  {
    if s != "" {
      NumberIsNatural(s[..|s| - 1]);
      assert '0' <= s[|s| - 1];
    }
  }

  /** A value from the command line: the root as it is, everything else a decimal 64-bit number. */
  function CliValue(key: Key, text: string): Option<Value> {
    if key == Root then Some(Text(text))
    else if text != "" && Digits(text) && Number(text) < 0x1_0000_0000_0000_0000 then
      NumberIsNatural(text);
      Some(Unsigned(Number(text)))
    else None
  }

  // ----- what the options say so far -----

  datatype Slot = KeySlot(key: Key) | ConfigSlot

  datatype Cli = Cli(values: map<Key, Value>, seen: set<Slot>, config: Option<string>, noAdmin: bool)

  const NOTHING := Cli(map[], {}, None, false)

  function SlotOf(name: Name): Slot {
    if name.ConfigFile? then ConfigSlot else KeySlot(name.key)
  }

  /** What one option (its name and, unless it stands alone, its value) adds. */
  function Step(env: Environment, cli: Cli, unit: seq<string>): Option<Cli>
    requires |unit| > 0 && |unit| == Width(unit[0])
  {
    if NameOf(unit[0]).None? then None
    else
      var name := NameOf(unit[0]).value;
      var next := cli.(seen := cli.seen + {SlotOf(name)});
      if SlotOf(name) in cli.seen then None
      else if name.ConfigFile? then Some(next.(config := Some(unit[1])))
      else if name.key == AdminPort && name.negative then Some(next.(noAdmin := true))
      else
        var value := if Alone(name) then Some(Flag(!name.negative)) else CliValue(name.key, unit[1]);
        if value.None? || !Accepted(env, name.key, value.value) then None
        else Some(next.(values := next.values[name.key := value.value]))
  }

  /** The options of an argument list, taken from the left. */
  function Collect(env: Environment, args: seq<string>, cli: Cli): Option<Cli>
    decreases |args|
  {
    if args == [] then Some(cli)
    else
      var width := Width(args[0]);
      if |args| < width then None
      else
        var next := Step(env, cli, args[..width]);
        if next.None? then None else Collect(env, args[width..], next.value)
  }

  // ----- the outcome -----

  /** The file the command line names, or an empty one. */
  function FileOf(env: Environment, config: Option<string>): Option<map<Key, Value>> {
    if config.None? then Some(map[]) else env.read(config.value)
  }

  function Final(cli: Cli, file: map<Key, Value>): Options {
    var o := Overlay(DEFAULTS, file + cli.values);
    if cli.noAdmin then o.(adminPort := None) else o
  }

  function Resolve(env: Environment, cli: Cli): Option<Options> {
    var file := FileOf(env, cli.config);
    if file.None? || !AllAccepted(env, file.value) then None
    else if (Port !in file.value && Port !in cli.values) || Final(cli, file.value).root == "" then None
    else Some(Final(cli, file.value))
  }

  function ResolveArguments(env: Environment, args: seq<string>): Option<Options> {
    var cli := Collect(env, args, NOTHING);
    if cli.None? then None else Resolve(env, cli.value)
  }

  /** One option of the argument list. */
  method ReadOption(env: Environment, cli: Cli, unit: seq<string>) returns (next: Option<Cli>)
    requires |unit| > 0 && |unit| == Width(unit[0])
    ensures next == Step(env, cli, unit)
  {
    hide NameOf, Accepted, CliValue;
    var named := NameOf(unit[0]);
    if named.None? || SlotOf(named.value) in cli.seen {
      return None;
    }
    var name, c := named.value, cli.(seen := cli.seen + {SlotOf(named.value)});
    if name.ConfigFile? {
      return Some(c.(config := Some(unit[1])));
    }
    if name.key == AdminPort && name.negative {
      return Some(c.(noAdmin := true));
    }
    var value := if Alone(name) then Some(Flag(!name.negative)) else CliValue(name.key, unit[1]);
    if value.None? {
      return None;
    }
    var field := ApplyField(env, DEFAULTS, name.key, value.value);
    if field.None? {
      return None;
    }
    next := Some(c.(values := c.values[name.key := value.value]));
  }

  /** The loop over the arguments. */
  method ReadArguments(env: Environment, args: seq<string>) returns (cli: Option<Cli>)
    ensures cli == Collect(env, args, NOTHING)
  {
    hide Step, NameOf;
    var c := NOTHING;
    var index := 0;
    while index < |args|
      invariant index <= |args|
      invariant Collect(env, args, NOTHING) == Collect(env, args[index..], c)
    {
      var width := Width(args[index]);
      ghost var rest := args[index..];
      assert rest[0] == args[index];
      if index + width > |args| {
        return None;
      }
      assert rest[..width] == args[index..index + width] && rest[width..] == args[index + width..];
      var next := ReadOption(env, c, args[index..index + width]);
      if next.None? {
        return None;
      }
      c := next.value;
      index := index + width;
    }
    assert args[index..] == [];
    cli := Some(c);
  }

  lemma {:induction false} CollectedAccepted(env: Environment, args: seq<string>, cli: Cli)
    requires AllAccepted(env, cli.values) && Collect(env, args, cli).Some?
    ensures AllAccepted(env, Collect(env, args, cli).value.values)
    decreases |args|
  {
    hide NameOf, Accepted, CliValue;
    if args != [] {
      var width := Width(args[0]);
      var next := Step(env, cli, args[..width]);
      CollectedAccepted(env, args[width..], next.value);
    }
  }

  lemma AcceptedIsTyped(env: Environment, m: map<Key, Value>)
    requires AllAccepted(env, m)
    ensures WellTyped(m)
  {
  }

  /** The whole: read the arguments, lay the file over the defaults and the command line over both. */
  method ResolveOptions(env: Environment, args: seq<string>) returns (options: Option<Options>)
    ensures options == ResolveArguments(env, args)
  {
    hide Collect, Accepted, Overlay;
    var cli := ReadArguments(env, args);
    if cli.None? {
      return None;
    }
    var file := FileOf(env, cli.value.config);
    if file.None? {
      return None;
    }
    var result := ApplyAll(env, DEFAULTS, file.value);
    if result.None? {
      return None;
    }
    CollectedAccepted(env, args, NOTHING);
    result := ApplyAll(env, result.value, cli.value.values);
    AcceptedIsTyped(env, cli.value.values);
    OverlayTwice(DEFAULTS, file.value, cli.value.values);
    var o := result.value;
    if cli.value.noAdmin {
      o := o.(adminPort := None);
    }
    if (Port !in file.value && Port !in cli.value.values) || o.root == "" {
      return None;
    }
    options := Some(o);
  }

  // ----- what the outcome means -----

  /** The value a field has, in the form in which it could be given. */
  function Get(o: Options, key: Key): Option<Value> {
    match key
    case Port => Some(Unsigned(o.port))
    case AdminPort => if o.adminPort.None? then None else Some(Unsigned(o.adminPort.value))
    case Threads => Some(Unsigned(o.threads))
    case MaxConnections => Some(Unsigned(o.connections))
    case InputBudget => Some(Unsigned(o.inputBytes))
    case OutputBudget => Some(Unsigned(o.outputBytes))
    case ShutdownTimeout => Some(Unsigned(o.shutdown))
    case IdleTimeout => Some(Unsigned(o.idle))
    case KeepAliveTimeout => Some(Unsigned(o.keepAlive))
    case ReadTimeout => Some(Unsigned(o.readTimeout))
    case Root => Some(Text(o.root))
    case AccessLog => Some(Flag(o.accessLog))
    case MetricsOnExit => Some(Flag(o.metricsOnExit))
    case Unknown(_) => None
  }

  lemma OverlayGet(o: Options, m: map<Key, Value>, key: Key)
    requires WellTyped(m) && !key.Unknown?
    ensures Get(Overlay(o, m), key) == if key in m then Some(m[key]) else Get(o, key)
  {
    if key in m {
      TypedAt(m, key);
    }
    hide WellTyped;
    if Range(key).Some? {
      NumberGet(o, m, key);
    }
  }

  lemma TypedAt(m: map<Key, Value>, key: Key)
    requires WellTyped(m) && key in m
    ensures if key == Root then m[key].Text?
            else if key == AccessLog || key == MetricsOnExit then m[key].Flag?
            else Range(key).Some? && m[key].Unsigned?
  {
  }

  lemma NumberGet(o: Options, m: map<Key, Value>, key: Key)
    requires Range(key).Some? && (key in m ==> m[key].Unsigned?)
    ensures Get(Overlay(o, m), key) == if key in m then Some(m[key]) else Get(o, key)
  {
  }

  /** Whatever is given where: every field has the command line's value if it gives one, else the file's,
      else the default, except that `--no-admin` leaves no admin port; both sources hold only accepted
      values, overridden or not; and a port and a root were given. */
  lemma LayersInOrder(env: Environment, args: seq<string>, key: Key)
    requires ResolveArguments(env, args).Some? && !key.Unknown?
    ensures var cli := Collect(env, args, NOTHING).value;
            var file := FileOf(env, cli.config).value;
            && AllAccepted(env, file) && AllAccepted(env, cli.values)
            && (Port in cli.values || Port in file) && (Root in cli.values || Root in file)
            && Get(ResolveArguments(env, args).value, key) ==
                 if key == AdminPort && cli.noAdmin then None
                 else if key in cli.values then Some(cli.values[key])
                 else if key in file then Some(file[key])
                 else Get(DEFAULTS, key)
  {
    hide Collect, Accepted, Overlay;
    CollectedAccepted(env, args, NOTHING);
    var cli := Collect(env, args, NOTHING).value;
    var file := FileOf(env, cli.config).value;
    AcceptedIsTyped(env, cli.values);
    AcceptedIsTyped(env, file);
    assert WellTyped(file + cli.values);
    OverlayGet(DEFAULTS, file + cli.values, key);
    OverlayGet(DEFAULTS, file + cli.values, Root);
  }

  lemma DefaultsAccepted(env: Environment, key: Key)
    requires !key.Unknown? && key != Root && Get(DEFAULTS, key).Some?
    ensures Accepted(env, key, Get(DEFAULTS, key).value)
  {
  }

  /** Every option of an accepted outcome is within its range. */
  lemma OutcomeInRange(env: Environment, args: seq<string>, key: Key)
    requires ResolveArguments(env, args).Some? && !key.Unknown? && Get(ResolveArguments(env, args).value, key).Some?
    ensures Accepted(env, key, Get(ResolveArguments(env, args).value, key).value)
  {
    hide Collect, Accepted, Overlay, Get, ResolveArguments;
    LayersInOrder(env, args, key);
    if key != Root && Get(DEFAULTS, key).Some? {
      DefaultsAccepted(env, key);
    }
  }

  // ----- the order of the options does not matter -----

  predicate Units(units: seq<seq<string>>) {
    forall i :: 0 <= i < |units| ==> |units[i]| > 0 && |units[i]| == Width(units[i][0])
  }

  function Flatten(units: seq<seq<string>>): seq<string> {
    if units == [] then [] else units[0] + Flatten(units[1..])
  }

  function Fold(env: Environment, units: seq<seq<string>>, cli: Cli): Option<Cli>
    requires Units(units)
    decreases |units|
  {
    if units == [] then Some(cli)
    else
      var next := Step(env, cli, units[0]);
      if next.None? then None else Fold(env, units[1..], next.value)
  }

  lemma {:induction false} CollectIsFold(env: Environment, units: seq<seq<string>>, cli: Cli)
    requires Units(units)
    ensures Collect(env, Flatten(units), cli) == Fold(env, units, cli)
    decreases |units|
  {
    hide Step, Width;
    if units != [] {
      var args, first := Flatten(units), units[0];
      assert args[..|first|] == first && args[|first|..] == Flatten(units[1..]) && args[0] == first[0];
      var next := Step(env, cli, first);
      if next.Some? {
        CollectIsFold(env, units[1..], next.value);
      }
    }
  }

  predicate Unit(u: seq<string>) {
    |u| > 0 && |u| == Width(u[0])
  }

  function Then(env: Environment, cli: Option<Cli>, u: seq<string>): Option<Cli>
    requires Unit(u)
  {
    if cli.None? then None else Step(env, cli.value, u)
  }

  /** What two sets of options say together. */
  function Merge(a: Cli, b: Cli): Cli {
    Cli(a.values + b.values, a.seen + b.seen, if b.config.Some? then b.config else a.config, a.noAdmin || b.noAdmin)
  }

  /** The options given by one unit alone touch only its own slot. */
  predicate OnlySlot(d: Cli, slot: Slot) {
    && d.seen == {slot}
    && (forall key :: key in d.values ==> slot == KeySlot(key))
    && (d.config.Some? ==> slot == ConfigSlot)
  }

  /** A unit adds the same whatever came before, unless its slot is taken. */
  lemma StepIsMerge(env: Environment, cli: Cli, u: seq<string>)
    requires Unit(u)
    ensures NameOf(u[0]).None? ==> Step(env, cli, u).None?
    ensures NameOf(u[0]).Some? ==>
              var slot, alone := SlotOf(NameOf(u[0]).value), Step(env, NOTHING, u);
              && (alone.Some? ==> OnlySlot(alone.value, slot))
              && Step(env, cli, u) == if alone.None? || slot in cli.seen then None else Some(Merge(cli, alone.value))
  {
    hide NameOf, Accepted, CliValue;
    if NameOf(u[0]).Some? {
      var alone, here := Step(env, NOTHING, u), Step(env, cli, u);
      if alone.Some? && here.Some? {
        assert here.value.values == Merge(cli, alone.value).values;
        assert here.value.seen == Merge(cli, alone.value).seen;
      }
    }
  }

  lemma MergesCommute(cli: Cli, a: Cli, b: Cli, x: Slot, y: Slot)
    requires OnlySlot(a, x) && OnlySlot(b, y) && x != y
    ensures Merge(Merge(cli, a), b) == Merge(Merge(cli, b), a)
  {
    var left, right := Merge(Merge(cli, a), b), Merge(Merge(cli, b), a);
    assert left.values == right.values;
    assert left.seen == right.seen;
  }

  /** Two options next to each other may change places. */
  lemma StepsCommute(env: Environment, cli: Cli, a: seq<string>, b: seq<string>)
    requires Unit(a) && Unit(b)
    ensures Then(env, Step(env, cli, a), b) == Then(env, Step(env, cli, b), a)
  {
    hide NameOf, Step, Merge, OnlySlot;
    StepIsMerge(env, cli, a);
    StepIsMerge(env, cli, b);
    if NameOf(a[0]).Some? && NameOf(b[0]).Some? {
      var x, y := SlotOf(NameOf(a[0]).value), SlotOf(NameOf(b[0]).value);
      var da, db := Step(env, NOTHING, a), Step(env, NOTHING, b);
      if da.Some? && db.Some? {
        StepIsMerge(env, Merge(cli, da.value), b);
        StepIsMerge(env, Merge(cli, db.value), a);
        SeenAfter(cli, da.value, x);
        SeenAfter(cli, db.value, y);
        if x != y {
          MergesCommute(cli, da.value, db.value, x, y);
        }
      }
    }
    if Step(env, cli, a).Some? {
      StepIsMerge(env, Step(env, cli, a).value, b);
    }
    if Step(env, cli, b).Some? {
      StepIsMerge(env, Step(env, cli, b).value, a);
    }
  }

  lemma SeenAfter(cli: Cli, d: Cli, slot: Slot)
    requires OnlySlot(d, slot)
    ensures Merge(cli, d).seen == cli.seen + {slot}
  {
  }

  lemma SwapFirst(env: Environment, a: seq<string>, b: seq<string>, rest: seq<seq<string>>, cli: Cli)
    requires Units([a, b] + rest) && Unit(a) && Unit(b) && Units(rest) && Units([b, a] + rest)
    ensures Fold(env, [a, b] + rest, cli) == Fold(env, [b, a] + rest, cli)
  {
    hide Step;
    StepsCommute(env, cli, a, b);
    FoldTwo(env, a, b, rest, cli);
    FoldTwo(env, b, a, rest, cli);
  }

  lemma FoldTwo(env: Environment, a: seq<string>, b: seq<string>, rest: seq<seq<string>>, cli: Cli)
    requires Units([a, b] + rest) && Unit(a) && Unit(b) && Units(rest)
    ensures var both := Then(env, Step(env, cli, a), b);
            Fold(env, [a, b] + rest, cli) == if both.None? then None else Fold(env, rest, both.value)
  {
    hide Step, Units;
    var all := [a, b] + rest;
    assert all[1..] == [b] + rest;
    TailUnits(all, 1);
    var next := Step(env, cli, a);
    if next.Some? {
      assert ([b] + rest)[1..] == rest;
    }
  }

  lemma TailUnits(units: seq<seq<string>>, n: nat)
    requires Units(units) && n <= |units|
    ensures Units(units[n..]) && Units(units[..n])
  {
  }

  lemma UnitsConcat(a: seq<seq<string>>, b: seq<seq<string>>)
    requires Units(a) && Units(b)
    ensures Units(a + b)
  {
  }

  lemma UnitAt(units: seq<seq<string>>, i: nat)
    requires Units(units) && i < |units|
    ensures Unit(units[i]) && Units([units[i]])
  {
  }

  /** Any option may be moved to the front. */
  lemma {:induction false} MoveToFront(env: Environment,
                                            before: seq<seq<string>>, x: seq<string>, after: seq<seq<string>>,
                                       cli: Cli)
    requires Units(before) && Unit(x) && Units(after) && Units(before + [x] + after) && Units([x] + before + after)
    ensures Fold(env, before + [x] + after, cli) == Fold(env, [x] + before + after, cli)
    decreases |before|
  {
    hide Step, Units, Width;
    if before == [] {
      assert before + [x] + after == [x] + before + after;
    } else {
      var first, rest := before[0], before[1..];
      UnitAt(before, 0);
      TailUnits(before, 1);
      UnitsJoin(rest, x, after);
      UnitsConcat(rest, after);
      UnitsPair(first, x, rest + after);
      assert (before + [x] + after)[1..] == rest + [x] + after && (before + [x] + after)[0] == first;
      var next := Step(env, cli, first);
      if next.Some? {
        MoveToFront(env, rest, x, after, next.value);
      }
      assert [first, x] + (rest + after) == [first] + ([x] + rest + after);
      assert ([first, x] + (rest + after))[1..] == [x] + rest + after;
      SwapFirst(env, first, x, rest + after, cli);
      assert [x, first] + (rest + after) == [x] + before + after;
    }
  }

  lemma UnitsJoin(a: seq<seq<string>>, x: seq<string>, b: seq<seq<string>>)
    requires Units(a) && Unit(x) && Units(b)
    ensures Units(a + [x] + b) && Units([x] + a + b)
  {
    hide Width;
  }

  lemma UnitsPair(x: seq<string>, y: seq<string>, rest: seq<seq<string>>)
    requires Unit(x) && Unit(y) && Units(rest)
    ensures Units([x, y] + rest) && Units([y, x] + rest)
  {
    hide Width;
  }

  /** Where the first element of a list stands in a reordering of it. */
  lemma FindFirst(a: seq<seq<string>>, b: seq<seq<string>>) returns (i: nat)
    requires a != [] && multiset(a) == multiset(b)
    ensures i < |b| && b[i] == a[0] && b == b[..i] + [b[i]] + b[i + 1..]
    ensures multiset(a[1..]) == multiset(b[..i] + b[i + 1..])
  {
    assert a[0] in multiset(b);
    i :| 0 <= i < |b| && b[i] == a[0];
    Without(a, 0);
    Without(b, i);
    assert a[..0] + a[1..] == a[1..];
  }

  lemma Without(s: seq<seq<string>>, i: nat)
    requires i < |s|
    ensures s == s[..i] + [s[i]] + s[i + 1..]
    ensures multiset(s[..i] + s[i + 1..]) == multiset(s) - multiset{s[i]}
  {
    var before, after := s[..i], s[i + 1..];
    assert s == before + [s[i]] + after;
    assert multiset(before + [s[i]] + after) == multiset(before) + multiset{s[i]} + multiset(after);
    assert multiset(before + after) == multiset(before) + multiset(after);
  }

  lemma FoldFirst(env: Environment, x: seq<string>, rest: seq<seq<string>>, units: seq<seq<string>>, cli: Cli)
    requires Unit(x) && Units(rest) && Units(units) && units == [x] + rest
    ensures Fold(env, units, cli) ==
            if Step(env, cli, x).None? then None else Fold(env, rest, Step(env, cli, x).value)
  {
    hide Step, Width;
    assert units[1..] == rest;
  }

  lemma {:induction false} FoldIgnoresOrder(env: Environment, a: seq<seq<string>>, b: seq<seq<string>>, cli: Cli)
    requires Units(a) && Units(b) && multiset(a) == multiset(b)
    ensures Fold(env, a, cli) == Fold(env, b, cli)
    decreases |a|
  {
    hide Step, Units, Width;
    if a == [] {
      assert |b| == |multiset(b)| == |multiset(a)| == 0;
    } else {
      var i := FindFirst(a, b);
      var x, before, after := a[0], b[..i], b[i + 1..];
      TailUnits(a, 1);
      UnitAt(a, 0);
      TailUnits(b, i);
      TailUnits(b, i + 1);
      UnitsJoin(before, x, after);
      UnitsConcat(before, after);
      hide Fold;
      MoveToFront(env, before, x, after, cli);
      assert [x] + before + after == [x] + (before + after);
      FoldFirst(env, x, before + after, [x] + before + after, cli);
      FoldFirst(env, x, a[1..], a, cli);
      if Step(env, cli, x).Some? {
        FoldIgnoresOrder(env, a[1..], before + after, Step(env, cli, x).value);
      }
    }
  }

  /** Options may be given in any order: the same options, each with its value, have the same outcome,
      the same options or a failure. */
  lemma OrderIsIrrelevant(env: Environment, a: seq<seq<string>>, b: seq<seq<string>>)
    requires Units(a) && Units(b) && multiset(a) == multiset(b)
    ensures ResolveArguments(env, Flatten(a)) == ResolveArguments(env, Flatten(b))
  {
    CollectIsFold(env, a, NOTHING);
    CollectIsFold(env, b, NOTHING);
    FoldIgnoresOrder(env, a, b, NOTHING);
  }
}
