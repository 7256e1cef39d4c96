/**
 * The activity's method-channel handler: "startCore", "stopCore" and
 * "startVpn" are answered; every other method is not implemented.
 */
module Dispatch {
  import opened Wrappers
  import Prefs
  import Engine

  /**
   * An argument as the host side receives it from the channel: a string, a
   * double, null, or a value of any other type (an integer, a list, ...).
   */
  datatype ArgValue = Text(s: string) | Number(x: real) | Null | Other

  /**
   * What a call carries as its arguments: a map by key, nothing at all, or
   * a single value of another kind (a list, a string, ...), from which
   * `call.argument(key)` throws `ClassCastException`.
   */
  datatype Arguments = Keyed(entries: map<string, ArgValue>) | NoArguments | Unkeyed

  /** A method-channel call: its name and its arguments. */
  datatype MethodCall = MethodCall(name: string, args: Arguments)

  /** The arguments by key; a call without arguments reads null for every key. */
  function ArgMap(call: MethodCall): map<string, ArgValue> {
    if call.args.Keyed? then call.args.entries else map[]
  }

  datatype StartArgs = StartArgs(
    ip: string, portRange: string, pass: string, obfs: string, multiplier: real, udpMode: string)

  const DefaultArgs := StartArgs("", "6000-19999", "", "hu``hqb`c", 1.0, "tcp")

  /**
   * The channel's reply when the handler throws: Flutter's method channel
   * catches the exception and answers `error("error", ...)`.
   */
  const HandlerErrorCode := "error"

  /** The key carries a value: absent and null both fall back to the default. */
  predicate Given(args: map<string, ArgValue>, key: string) {
    key in args && !args[key].Null?
  }

  /** `call.argument<T>(key)` passes the cast to `String` (or to `Double` when `number`). */
  predicate Casts(args: map<string, ArgValue>, key: string, number: bool) {
    !Given(args, key) || (if number then args[key].Number? else args[key].Text?)
  }

  /** Every argument of "startCore" passes its cast. */
  predicate StartArgsCast(args: map<string, ArgValue>) {
    && Casts(args, "ip", false)
    && Casts(args, "port_range", false)
    && Casts(args, "pass", false)
    && Casts(args, "obfs", false)
    && Casts(args, "recv_window_multiplier", true)
    && Casts(args, "udp_mode", false)
  }

  /** `call.argument<String>(key) ?: default`, for an argument that passes its cast. */
  function TextArg(args: map<string, ArgValue>, key: string, default: string): string
    requires Casts(args, key, false)
  {
    if Given(args, key) then args[key].s else default
  }

  /** `call.argument<Double>(key) ?: default`, for an argument that passes its cast. */
  function NumberArg(args: map<string, ArgValue>, key: string, default: real): real
    requires Casts(args, key, true)
  {
    if Given(args, key) then args[key].x else default
  }

  /**
   * The arguments of "startCore": each given argument taken as passed, each
   * missing or null one defaulted; `None` when an argument of the wrong
   * type makes its cast throw, or when the arguments are not a map.
   */
  function StartArgsOf(call: MethodCall): (r: Option<StartArgs>)
    ensures r.Some? <==> !call.args.Unkeyed? && StartArgsCast(ArgMap(call))
    ensures r.Some? && Given(ArgMap(call), "ip") ==> r.value.ip == ArgMap(call)["ip"].s
    ensures r.Some? && Given(ArgMap(call), "port_range") ==> r.value.portRange == ArgMap(call)["port_range"].s
    ensures r.Some? && Given(ArgMap(call), "pass") ==> r.value.pass == ArgMap(call)["pass"].s
    ensures r.Some? && Given(ArgMap(call), "obfs") ==> r.value.obfs == ArgMap(call)["obfs"].s
    ensures r.Some? && Given(ArgMap(call), "recv_window_multiplier") ==> r.value.multiplier == ArgMap(call)["recv_window_multiplier"].x
    ensures r.Some? && Given(ArgMap(call), "udp_mode") ==> r.value.udpMode == ArgMap(call)["udp_mode"].s
    ensures r.Some? && !Given(ArgMap(call), "ip") ==> r.value.ip == DefaultArgs.ip
    ensures r.Some? && !Given(ArgMap(call), "port_range") ==> r.value.portRange == DefaultArgs.portRange
    ensures r.Some? && !Given(ArgMap(call), "pass") ==> r.value.pass == DefaultArgs.pass
    ensures r.Some? && !Given(ArgMap(call), "obfs") ==> r.value.obfs == DefaultArgs.obfs
    ensures r.Some? && !Given(ArgMap(call), "recv_window_multiplier") ==> r.value.multiplier == DefaultArgs.multiplier
    ensures r.Some? && !Given(ArgMap(call), "udp_mode") ==> r.value.udpMode == DefaultArgs.udpMode
  {
    if call.args.Unkeyed? || !StartArgsCast(ArgMap(call)) then None
    else
      Some(StartArgs(
        TextArg(ArgMap(call), "ip", DefaultArgs.ip),
        TextArg(ArgMap(call), "port_range", DefaultArgs.portRange),
        TextArg(ArgMap(call), "pass", DefaultArgs.pass),
        TextArg(ArgMap(call), "obfs", DefaultArgs.obfs),
        NumberArg(ArgMap(call), "recv_window_multiplier", DefaultArgs.multiplier),
        TextArg(ArgMap(call), "udp_mode", DefaultArgs.udpMode)))
  }

  /** The activity's state: the engine's fleet and the shared preferences. */
  datatype App = App(fleet: Engine.Fleet, prefs: Prefs.Store)

  /**
   * What the handler cannot see: the native library directory, whether
   * the system still has to ask the user for VPN consent, and where (if
   * anywhere) a start throws.
   */
  datatype CallEnv = CallEnv(libDir: string, needsConsent: bool, fault: Engine.Fault)

  datatype Handled = Handled(app: App, reply: Engine.Reply, effects: seq<Engine.Effect>)

  function StartCore(app: App, a: StartArgs, env: CallEnv): Handled {
    var s := Engine.StartEngine(app.fleet, app.prefs, env.libDir, a.multiplier, a.udpMode, env.fault);
    Handled(App(s.fleet, s.prefs), s.reply, s.effects)
  }

  /** `stopEngine` then `stopVpn` (one more disconnect intent), answering "Stopped". */
  function StopCore(app: App): Handled {
    var s := Engine.StopEngine(app.fleet);
    Handled(App(s.fleet, app.prefs), Engine.Success("Stopped"), s.effects + [Engine.SendIntent(Engine.Disconnect)])
  }

  /** Ask for consent if the system needs it, otherwise send the connect intent. */
  function StartVpn(app: App, env: CallEnv): Handled {
    if env.needsConsent then Handled(app, Engine.Success("REQUEST_PERMISSION"), [Engine.AskVpnPermission])
    else Handled(app, Engine.Success("STARTED"), [Engine.SendIntent(Engine.Connect)])
  }

  /** The method-call handler registered on the core channel. */
  function OnMethodCall(app: App, call: MethodCall, env: CallEnv): (r: Handled)
    ensures call.name == "startCore" && StartArgsOf(call).None? ==> r == Handled(app, Engine.Error(HandlerErrorCode), [])
    ensures call.name == "startCore" && StartArgsOf(call).Some? ==>
      && (r.reply == Engine.Success(Engine.RunningMessage) <==> !Engine.Aborts(env.fault))
      && (r.reply != Engine.Success(Engine.RunningMessage) ==> r.reply == Engine.Error(Engine.StartErrorCode) && r.app.fleet.processes == [])
      && Prefs.GetString(r.app.prefs, Engine.UdpModeKey, "") == Some(StartArgsOf(call).value.udpMode)
    ensures call.name == "startCore" && StartArgsOf(call).Some? ==>
      var a := StartArgsOf(call).value;
      var s := Engine.StartEngine(app.fleet, app.prefs, env.libDir, a.multiplier, a.udpMode, env.fault);
      r == Handled(App(s.fleet, s.prefs), s.reply, s.effects)
    ensures call.name == "stopCore" ==>
      && r.app.fleet.processes == [] && r.app.prefs == app.prefs
      && r.reply == Engine.Success("Stopped")
      && |r.effects| == |app.fleet.processes| + 3
      && r.effects[0] == r.effects[|r.effects| - 1] == Engine.SendIntent(Engine.Disconnect)
    ensures call.name == "stopCore" ==>
      r.effects == Engine.StopEngine(app.fleet).effects + [Engine.SendIntent(Engine.Disconnect)]
    ensures call.name == "startVpn" ==>
      && r.app == app
      && (env.needsConsent ==> r.reply == Engine.Success("REQUEST_PERMISSION") && r.effects == [Engine.AskVpnPermission])
      && (!env.needsConsent ==> r.reply == Engine.Success("STARTED") && r.effects == [Engine.SendIntent(Engine.Connect)])
    ensures call.name !in {"startCore", "stopCore", "startVpn"} ==> r == Handled(app, Engine.NotImplemented, [])
  {
    if call.name == "startCore" then
      match StartArgsOf(call)
      case None => Handled(app, Engine.Error(HandlerErrorCode), [])
      case Some(a) => StartCore(app, a, env)
    else if call.name == "stopCore" then StopCore(app)
    else if call.name == "startVpn" then StartVpn(app, env)
    else Handled(app, Engine.NotImplemented, [])
  }

  /** A call without arguments, or with an empty map of them, starts with the defaults of the `?:` fallbacks. */
  lemma StartCoreDefaults(app: App, env: CallEnv)
    ensures StartArgsOf(MethodCall("startCore", NoArguments)) == Some(DefaultArgs)
    ensures OnMethodCall(app, MethodCall("startCore", NoArguments), env) == StartCore(app, DefaultArgs, env)
    ensures StartArgsOf(MethodCall("startCore", Keyed(map[]))) == Some(DefaultArgs)
  {
  }

  /**
   * The address, port range, password and obfuscation key a caller passes
   * change nothing: two "startCore" calls that agree on the multiplier and
   * the UDP mode behave identically.
   */
  lemma StartCoreIgnoresCredentials(app: App, c1: MethodCall, c2: MethodCall, env: CallEnv)
    requires c1.name == "startCore" && c2.name == "startCore"
    requires StartArgsOf(c1).Some? <==> StartArgsOf(c2).Some?
    requires StartArgsOf(c1).Some? ==>
      && StartArgsOf(c1).value.multiplier == StartArgsOf(c2).value.multiplier
      && StartArgsOf(c1).value.udpMode == StartArgsOf(c2).value.udpMode
    ensures OnMethodCall(app, c1, env) == OnMethodCall(app, c2, env)
  {
  }

  /** An integer multiplier (a Dart `int`) fails the cast to `Double`: the call answers "error" and changes nothing. */
  lemma IntegerMultiplierIsAnError(app: App, env: CallEnv)
    ensures OnMethodCall(app, MethodCall("startCore", Keyed(map["recv_window_multiplier" := Other])), env)
         == Handled(app, Engine.Error(HandlerErrorCode), [])
  {
  }

  /**
   * Arguments that are neither null nor a map make the first
   * `call.argument` throw: the call answers "error" and changes nothing.
   */
  lemma UnkeyedArgumentsAreAnError(app: App, env: CallEnv)
    ensures OnMethodCall(app, MethodCall("startCore", Unkeyed), env)
         == Handled(app, Engine.Error(HandlerErrorCode), [])
  {
  }
}
