/**
 Server options from defaults, a configuration file and the command line (`app/ServerConfig.cpp`).

 Reading the file and checking UTF-8 are left to the environment; a file that cannot be read as one
 flat JSON object without repeated keys is absent.
 */
module ServerConfig {
  import opened Basics

  /** The fields by name; anything else is unknown. */
  datatype Key =
    | Port | AdminPort | Threads | MaxConnections | InputBudget | OutputBudget | ShutdownTimeout | IdleTimeout
    | KeepAliveTimeout | ReadTimeout | Root | AccessLog | MetricsOnExit | Unknown(name: string)

  function KeyOf(name: string): Key {
    if name == "port" then Port
    else if name == "admin_port" then AdminPort
    else if name == "threads" then Threads
    else if name == "max_connections" then MaxConnections
    else if name == "input_budget_bytes" then InputBudget
    else if name == "output_budget_bytes" then OutputBudget
    else if name == "shutdown_timeout_ms" then ShutdownTimeout
    else if name == "idle_timeout_ms" then IdleTimeout
    else if name == "keep_alive_timeout_ms" then KeepAliveTimeout
    else if name == "request_read_timeout_ms" then ReadTimeout
    else if name == "root" then Root
    else if name == "access_log" then AccessLog
    else if name == "metrics_on_exit" then MetricsOnExit
    else Unknown(name)
  }

  datatype Value = Text(text: string) | Flag(flag: bool) | Unsigned(number: nat) | OtherJson

  datatype Environment = Environment(read: string -> Option<map<Key, Value>>, utf8: string -> bool)

  datatype Options = Options(
    port: nat, root: string, threads: nat, accessLog: bool, metricsOnExit: bool, shutdown: nat, readTimeout: nat,
    idle: nat, keepAlive: nat, connections: nat, inputBytes: nat, outputBytes: nat, adminPort: Option<nat>)

  // ----- one field -----

  /** The integer fields and their ranges. */
  function Range(key: Key): Option<(nat, nat)> {
    if key == Port || key == AdminPort then Some((0, 65535))
    else if key == Threads then Some((0, 64))
    else if key == MaxConnections then Some((1, 4096))
    else if key == InputBudget then Some((1081344, 1073741824))
    else if key == OutputBudget then Some((1024, 1073741824))
    else if key == ShutdownTimeout then Some((0, 60000))
    else if key == IdleTimeout || key == KeepAliveTimeout || key == ReadTimeout then
      Some((0, 86400000))
    else None
  }

  predicate Accepted(env: Environment, key: Key, value: Value) {
    if key == Root then
      value.Text? && 0 < |value.text| <= 4096 && (forall i :: 0 <= i < |value.text| ==> value.text[i] != '\0') &&
      env.utf8(value.text)
    else if key == AccessLog || key == MetricsOnExit then value.Flag?
    else Range(key).Some? && value.Unsigned? && Range(key).value.0 <= value.number <= Range(key).value.1
  }

  function CheckedInteger(value: Value, minimum: nat, maximum: nat): Option<nat> {
    if value.Unsigned? && minimum <= value.number <= maximum then Some(value.number) else None
  }

  method CheckedRoot(env: Environment, value: Value) returns (ok: bool)
    ensures ok == Accepted(env, Root, value)
  {
    if !value.Text? || value.text == "" || |value.text| > 4096 {
      return false;
    }
    for i := 0 to |value.text|
      invariant forall k :: 0 <= k < i ==> value.text[k] != '\0'
    {
      if value.text[i] == '\0' {
        return false;
      }
    }
    ok := env.utf8(value.text);
  }

  /** Set one field, or fail. */
  method ApplyField(env: Environment, options: Options, key: Key, value: Value) returns (r: Option<Options>)
    ensures r.Some? <==> Accepted(env, key, value)
    ensures r.Some? ==> r.value == Overlay(options, map[key := value])
  {
    hide Overlay, SetNumber;
    if key == Root {
      var ok := CheckedRoot(env, value);
      if !ok {
        return None;
      }
      RootIsOverlay(options, value.text);
      return Some(options.(root := value.text));
    } else if key == AccessLog || key == MetricsOnExit {
      if !value.Flag? {
        return None;
      }
      FlagIsOverlay(options, value.flag);
      return Some(if key == AccessLog then options.(accessLog := value.flag)
                  else options.(metricsOnExit := value.flag));
    }
    var range := Range(key);
    if range.None? {
      return None;
    }
    var number := CheckedInteger(value, range.value.0, range.value.1);
    if number.None? {
      return None;
    }
    NumberIsOverlay(options, key, number.value);
    r := Some(SetNumber(options, key, number.value));
  }

  lemma RootIsOverlay(o: Options, text: string)
    ensures Overlay(o, map[Root := Text(text)]) == o.(root := text)
  {
  }

  lemma FlagIsOverlay(o: Options, flag: bool)
    ensures Overlay(o, map[AccessLog := Flag(flag)]) == o.(accessLog := flag)
    ensures Overlay(o, map[MetricsOnExit := Flag(flag)]) == o.(metricsOnExit := flag)
  {
  }

  lemma NumberIsOverlay(o: Options, key: Key, n: nat)
    requires Range(key).Some?
    ensures Overlay(o, map[key := Unsigned(n)]) == SetNumber(o, key, n)
  {
    match key {
      case _ =>
    }
  }

  function SetNumber(o: Options, key: Key, n: nat): Options {
    if key == Port then o.(port := n)
    else if key == AdminPort then o.(adminPort := Some(n))
    else if key == Threads then o.(threads := n)
    else if key == MaxConnections then o.(connections := n)
    else if key == InputBudget then o.(inputBytes := n)
    else if key == OutputBudget then o.(outputBytes := n)
    else if key == IdleTimeout then o.(idle := n)
    else if key == KeepAliveTimeout then o.(keepAlive := n)
    else if key == ReadTimeout then o.(readTimeout := n)
    else if key == ShutdownTimeout then o.(shutdown := n)
    else o
  }

  // ----- layers -----

  function NumberOr(m: map<Key, Value>, key: Key, default_: nat): nat {
    if key in m && m[key].Unsigned? then m[key].number else default_
  }

  function FlagOr(m: map<Key, Value>, key: Key, default_: bool): bool {
    if key in m && m[key].Flag? then m[key].flag else default_
  }

  function TextOr(m: map<Key, Value>, key: Key, default_: string): string {
    if key in m && m[key].Text? then m[key].text else default_
  }

  function AdminOr(m: map<Key, Value>, default_: Option<nat>): Option<nat> {
    if AdminPort in m && m[AdminPort].Unsigned? then Some(m[AdminPort].number) else default_
  }

  /** Each field from the layer where the layer has it, from `o` where it does not. */
  function Overlay(o: Options, m: map<Key, Value>): Options {
    Options(NumberOr(m, Port, o.port), TextOr(m, Root, o.root), NumberOr(m, Threads, o.threads),
            FlagOr(m, AccessLog, o.accessLog), FlagOr(m, MetricsOnExit, o.metricsOnExit),
            NumberOr(m, ShutdownTimeout, o.shutdown), NumberOr(m, ReadTimeout, o.readTimeout),
            NumberOr(m, IdleTimeout, o.idle), NumberOr(m, KeepAliveTimeout, o.keepAlive),
            NumberOr(m, MaxConnections, o.connections), NumberOr(m, InputBudget, o.inputBytes),
            NumberOr(m, OutputBudget, o.outputBytes),
            AdminOr(m, o.adminPort))
  }

  predicate AllAccepted(env: Environment, m: map<Key, Value>) {
    forall key :: key in m ==> Accepted(env, key, m[key])
  }

  predicate WellTyped(m: map<Key, Value>) {
    forall key :: key in m ==>
      if key == Root then m[key].Text?
      else if key == AccessLog || key == MetricsOnExit then m[key].Flag?
      else Range(key).Some? && m[key].Unsigned?
  }

  lemma NumberTwice(below: map<Key, Value>, above: map<Key, Value>, key: Key, default_: nat)
    requires key in above ==> above[key].Unsigned?
    ensures NumberOr(above, key, NumberOr(below, key, default_)) == NumberOr(below + above, key, default_)
  {
  }

  lemma FlagTwice(below: map<Key, Value>, above: map<Key, Value>, key: Key, default_: bool)
    requires key in above ==> above[key].Flag?
    ensures FlagOr(above, key, FlagOr(below, key, default_)) == FlagOr(below + above, key, default_)
  {
  }

  lemma TextTwice(below: map<Key, Value>, above: map<Key, Value>, key: Key, default_: string)
    requires key in above ==> above[key].Text?
    ensures TextOr(above, key, TextOr(below, key, default_)) == TextOr(below + above, key, default_)
  {
  }

  lemma AdminTwice(below: map<Key, Value>, above: map<Key, Value>, default_: Option<nat>)
    requires AdminPort in above ==> above[AdminPort].Unsigned?
    ensures AdminOr(above, AdminOr(below, default_)) == AdminOr(below + above, default_)
  {
  }

  /** Two layers, one after the other, are the one layer in which the later wins. */
  lemma OverlayTwice(o: Options, below: map<Key, Value>, above: map<Key, Value>)
    requires WellTyped(above)
    ensures Overlay(Overlay(o, below), above) == Overlay(o, below + above)
  {
    hide NumberOr, FlagOr, TextOr, AdminOr;
    NumberTwice(below, above, Port, o.port);
    NumberTwice(below, above, Threads, o.threads);
    NumberTwice(below, above, ShutdownTimeout, o.shutdown);
    NumberTwice(below, above, ReadTimeout, o.readTimeout);
    NumberTwice(below, above, IdleTimeout, o.idle);
    NumberTwice(below, above, KeepAliveTimeout, o.keepAlive);
    NumberTwice(below, above, MaxConnections, o.connections);
    NumberTwice(below, above, InputBudget, o.inputBytes);
    NumberTwice(below, above, OutputBudget, o.outputBytes);
    FlagTwice(below, above, AccessLog, o.accessLog);
    FlagTwice(below, above, MetricsOnExit, o.metricsOnExit);
    TextTwice(below, above, Root, o.root);
    AdminTwice(below, above, o.adminPort);
  }

  /** Setting all fields of a layer, in whatever order they come. */
  method ApplyAll(env: Environment, options: Options, m: map<Key, Value>) returns (r: Option<Options>)
    ensures r.Some? <==> AllAccepted(env, m)
    ensures r.Some? ==> r.value == Overlay(options, m)
  {
    hide Accepted, Overlay;
    var todo := m.Keys;
    var o := options;
    ghost var done: map<Key, Value> := map[];
    OverlayNothing(options);
    while todo != {}
      invariant todo <= m.Keys && done.Keys == m.Keys - todo
      invariant forall key :: key in done ==> done[key] == m[key] && Accepted(env, key, m[key])
      invariant o == Overlay(options, done)
      decreases todo
    {
      var key :| key in todo;
      var next := ApplyField(env, o, key, m[key]);
      if next.None? {
        return None;
      }
      OneMore(env, options, done, key, m[key]);
      o, todo := next.value, todo - {key};
      done := done[key := m[key]];
    }
    assert done == m;
    r := Some(o);
  }

  lemma OverlayNothing(o: Options)
    ensures Overlay(o, map[]) == o
  {
  }

  lemma OneMore(env: Environment, o: Options, done: map<Key, Value>, key: Key, value: Value)
    requires Accepted(env, key, value)
    ensures Overlay(Overlay(o, done), map[key := value]) == Overlay(o, done[key := value])
  {
    hide Overlay;
    assert WellTyped(map[key := value]);
    OverlayTwice(o, done, map[key := value]);
    assert done + map[key := value] == done[key := value];
  }
}
