/**
 * The activity and the VPN service together. The activity's intents are
 * delivered, in the order it sent them, to the service's
 * `onStartCommand`; both sides share one preference store. The activity
 * addresses its intents to a `TunService` class with its own action
 * constants; that class is not part of this model, and delivery assumes
 * its actions are the service's CONNECT and DISCONNECT.
 */
module System {
  import opened Wrappers
  import Decimal
  import Prefs
  import Launch
  import Engine
  import Dispatch
  import Vpn

  function ActionString(a: Engine.Action): string {
    match a
    case Connect => Vpn.ActionConnect
    case Disconnect => Vpn.ActionDisconnect
  }

  /** The service and the shared preferences. */
  datatype Device = Device(svc: Vpn.Service, prefs: Prefs.Store)

  /**
   * Runs `onStartCommand` for each intent among `fx`, in order, with the
   * same outcome for every fallible call; stops at the first uncaught
   * exception. Effects other than intents do not reach the service.
   */
  function Deliver(d: Device, fx: seq<Engine.Effect>, env: Vpn.ConnectEnv, cacheDir: string): (r: Completion<Device>)
    ensures r.Normal? ==> r.value.svc.nativeLoaded == d.svc.nativeLoaded
    decreases |fx|
  {
    if |fx| == 0 then Normal(d)
    else if !fx[0].SendIntent? then Deliver(d, fx[1..], env, cacheDir)
    else match Vpn.OnStartCommand(d.svc, d.prefs, Some(ActionString(fx[0].action)), env, cacheDir)
      case Thrown => Thrown
      case Normal(c) => Deliver(Device(c.out.svc, c.out.prefs), fx[1..], env, cacheDir)
  }

  /** The action of the last intent among `fx`, if any. */
  function LastIntent(fx: seq<Engine.Effect>): Option<Engine.Action>
    decreases |fx|
  {
    if |fx| == 0 then None
    else if fx[|fx| - 1].SendIntent? then Some(fx[|fx| - 1].action)
    else LastIntent(fx[..|fx| - 1])
  }

  lemma {:induction false} LastIntentAppend(a: seq<Engine.Effect>, b: seq<Engine.Effect>)
    ensures LastIntent(a + b) == if LastIntent(b).Some? then LastIntent(b) else LastIntent(a)
    decreases |b|
  {
    if |b| == 0 {
      assert a + b == a;
    } else {
      assert (a + b)[..|a + b| - 1] == a + b[..|b| - 1];
      LastIntentAppend(a, b[..|b| - 1]);
    }
  }

  lemma {:induction false} LastIntentFirst(e: Engine.Effect, fx: seq<Engine.Effect>)
    ensures LastIntent([e] + fx) == if LastIntent(fx).Some? then LastIntent(fx) else if e.SendIntent? then Some(e.action) else None
  {
    LastIntentAppend([e], fx);
    assert [e][..0] == [];
  }

  /** With no intents among `fx` the service sees nothing. */
  lemma {:induction false} DeliverNoIntents(d: Device, fx: seq<Engine.Effect>, env: Vpn.ConnectEnv, cacheDir: string)
    requires LastIntent(fx).None?
    ensures Deliver(d, fx, env, cacheDir) == Normal(d)
    decreases |fx|
  {
    if |fx| > 0 {
      LastIntentFirst(fx[0], fx[1..]);
      assert [fx[0]] + fx[1..] == fx;
      DeliverNoIntents(d, fx[1..], env, cacheDir);
    }
  }

  /** Delivering intents that end with DISCONNECT leaves the VPN down, whatever came before. */
  lemma {:induction false} LastDisconnectWins(d: Device, fx: seq<Engine.Effect>, env: Vpn.ConnectEnv, cacheDir: string)
    requires d.svc.nativeLoaded
    requires LastIntent(fx) == Some(Engine.Disconnect)
    ensures Deliver(d, fx, env, cacheDir).Normal?
    ensures var end := Deliver(d, fx, env, cacheDir).value;
      end.svc.iface.None? && Vpn.VpnRunningKey in end.prefs && end.prefs[Vpn.VpnRunningKey] == Prefs.Flag(false)
    decreases |fx|
  {
    LastIntentFirst(fx[0], fx[1..]);
    assert [fx[0]] + fx[1..] == fx;
    if !fx[0].SendIntent? {
      LastDisconnectWins(d, fx[1..], env, cacheDir);
    } else {
      var c := Vpn.OnStartCommand(d.svc, d.prefs, Some(ActionString(fx[0].action)), env, cacheDir).value;
      var d' := Device(c.out.svc, c.out.prefs);
      if LastIntent(fx[1..]).Some? {
        LastDisconnectWins(d', fx[1..], env, cacheDir);
      } else {
        DeliverNoIntents(d', fx[1..], env, cacheDir);
      }
    }
  }

  /** "stopCore" takes the VPN down once its intents reach the service. */
  lemma StopCoreDisconnectsVpn(app: Dispatch.App, call: Dispatch.MethodCall, env: Dispatch.CallEnv,
                               svc: Vpn.Service, connectEnv: Vpn.ConnectEnv, cacheDir: string)
    requires call.name == "stopCore"
    requires svc.nativeLoaded
    ensures var r := Dispatch.OnMethodCall(app, call, env);
      var end := Deliver(Device(svc, r.app.prefs), r.effects, connectEnv, cacheDir);
      && end.Normal? && end.value.svc.iface.None?
      && Vpn.VpnRunningKey in end.value.prefs && end.value.prefs[Vpn.VpnRunningKey] == Prefs.Flag(false)
  {
    var r := Dispatch.OnMethodCall(app, call, env);
    var s := Engine.StopEngine(app.fleet);
    assert r.effects == s.effects + [Engine.SendIntent(Engine.Disconnect)];
    LastIntentAppend(s.effects, [Engine.SendIntent(Engine.Disconnect)]);
    assert [Engine.SendIntent(Engine.Disconnect)][..0] == [];
    LastDisconnectWins(Device(svc, r.app.prefs), r.effects, connectEnv, cacheDir);
  }

  /**
   * "startCore" also takes the VPN down: the teardown it begins with (and
   * the one after a failure) sends DISCONNECT, and spawning sends nothing.
   */
  lemma StartCoreDisconnectsVpn(app: Dispatch.App, call: Dispatch.MethodCall, env: Dispatch.CallEnv,
                                svc: Vpn.Service, connectEnv: Vpn.ConnectEnv, cacheDir: string)
    requires call.name == "startCore"
    requires svc.nativeLoaded
    ensures var r := Dispatch.OnMethodCall(app, call, env);
      var end := Deliver(Device(svc, r.app.prefs), r.effects, connectEnv, cacheDir);
      && (Dispatch.StartArgsOf(call).Some? ==> end.Normal? && end.value.svc.iface.None?)
      && (Dispatch.StartArgsOf(call).None? ==> end == Normal(Device(svc, app.prefs)))
  {
    var r := Dispatch.OnMethodCall(app, call, env);
    match Dispatch.StartArgsOf(call)
    case None =>
      assert r.effects == [];
    case Some(a) =>
      StartEndsWithDisconnect(app.fleet, app.prefs, env.libDir, a.multiplier, a.udpMode, env.fault);
      LastDisconnectWins(Device(svc, r.app.prefs), r.effects, connectEnv, cacheDir);
  }

  /** The last intent a stop sends is its DISCONNECT. */
  lemma StopEndsWithDisconnect(f: Engine.Fleet)
    ensures LastIntent(Engine.StopEngine(f).effects) == Some(Engine.Disconnect)
  {
    var fx := Engine.StopEngine(f).effects;
    var init := [Engine.SendIntent(Engine.Disconnect)] + Engine.DestroyAll(f.processes);
    assert fx == init + [Engine.Exec(Engine.SweepCommand)];
    LastIntentAppend(init, [Engine.Exec(Engine.SweepCommand)]);
    assert [Engine.Exec(Engine.SweepCommand)][..0] == [];
    DestroysHaveNoIntent(f.processes);
    LastIntentFirst(Engine.SendIntent(Engine.Disconnect), Engine.DestroyAll(f.processes));
  }

  /** Whether it succeeds or rolls back, a start's last intent is DISCONNECT. */
  lemma StartEndsWithDisconnect(f: Engine.Fleet, prefs: Prefs.Store, libDir: string, multiplier: real, udpMode: string, fault: Engine.Fault)
    ensures LastIntent(Engine.StartEngine(f, prefs, libDir, multiplier, udpMode, fault).effects) == Some(Engine.Disconnect)
  {
    var cleaned := Engine.StopEngine(f);
    var l := Engine.LaunchFleet(f.next, libDir, multiplier, fault);
    var attempt := Engine.TryLaunch(f.next, libDir, multiplier, fault);
    StopEndsWithDisconnect(f);
    SpawnEffectsHaveNoIntent(l.procs);
    if l.failed {
      var launched := Engine.Fleet(l.procs, f.next + |l.procs|);
      assert attempt.effects == Engine.SpawnEffects(l.procs) + Engine.StopEngine(launched).effects;
      StopEndsWithDisconnect(launched);
      LastIntentAppend(Engine.SpawnEffects(l.procs), Engine.StopEngine(launched).effects);
    } else {
      assert attempt.effects == Engine.SpawnEffects(l.procs);
    }
    LastIntentAppend(cleaned.effects, attempt.effects);
  }

  lemma {:induction false} SpawnEffectsHaveNoIntent(ps: seq<Engine.Proc>)
    ensures LastIntent(Engine.SpawnEffects(ps)) == None
    decreases |ps|
  {
    if |ps| > 0 {
      var p := ps[0];
      SpawnEffectsHaveNoIntent(ps[1..]);
      assert Engine.SpawnEffects(ps)
          == [Engine.Spawn(p.handle, p.spec)] + ([Engine.Watch(p.handle, Launch.TagOf(p.spec))] + Engine.SpawnEffects(ps[1..]));
      LastIntentFirst(Engine.Watch(p.handle, Launch.TagOf(p.spec)), Engine.SpawnEffects(ps[1..]));
      LastIntentFirst(Engine.Spawn(p.handle, p.spec), [Engine.Watch(p.handle, Launch.TagOf(p.spec))] + Engine.SpawnEffects(ps[1..]));
    }
  }

  lemma {:induction false} DestroysHaveNoIntent(ps: seq<Engine.Proc>)
    ensures LastIntent(Engine.DestroyAll(ps)) == None
    decreases |ps|
  {
    if |ps| > 0 {
      var fx := Engine.DestroyAll(ps);
      assert fx[..|fx| - 1] == Engine.DestroyAll(ps[..|ps| - 1]);
      DestroysHaveNoIntent(ps[..|ps| - 1]);
    }
  }

  /**
   * The tunnel configuration the service writes sends traffic to the
   * balancer: its socks5 section names 127.0.0.1 and the same port the
   * activity passes to the balancer as "-lport", 7777.
   */
  lemma TunnelConfigTargetsBalancer(udpMode: string, libLoad: string, targets: seq<string>)
    requires '\n' !in udpMode && '\r' !in udpMode
    ensures var ls := ConfigFileLines(udpMode);
      && ls == Vpn.ConfigLines(udpMode)
      && ls[4] == "socks5:"
      && ls[5] == "  port: " + Launch.BalancerCommand(libLoad, targets)[2]
      && Decimal.ParseNat(ls[5][|"  port: "|..]) == Some(Launch.BalancerPort)
      && ls[6] == "  address: " + Launch.LoopbackHost
  {
    Vpn.ConfigTextLines(udpMode);
    Launch.BalancerLiteralsAgree();
    var ls := ConfigFileLines(udpMode);
    assert ls[5][|"  port: "|..] == "7777";
  }

  function ConfigFileLines(udpMode: string): seq<string> {
    Vpn.SplitLines(Vpn.ConfigText(udpMode))
  }

  /**
   * The UDP mode given to "startCore" (or its default) is what the service
   * reads back under its own key, whatever the start's outcome; with no
   * mode ever stored, both sides default to "tcp". A call whose arguments
   * fail their casts stores nothing.
   */
  lemma UdpModeReachesService(app: Dispatch.App, call: Dispatch.MethodCall, env: Dispatch.CallEnv)
    requires call.name == "startCore"
    ensures var r := Dispatch.OnMethodCall(app, call, env);
      && (Dispatch.StartArgsOf(call).Some? ==> Vpn.UdpModeOf(r.app.prefs) == Some(Dispatch.StartArgsOf(call).value.udpMode))
      && (Dispatch.StartArgsOf(call).None? ==> r.app.prefs == app.prefs)
    ensures Vpn.UdpModeOf(map[]) == Some(Dispatch.DefaultArgs.udpMode)
  {
  }

  /** Delivering intents never changes the UDP mode the service reads. */
  lemma {:induction false} DeliverKeepsUdpMode(d: Device, fx: seq<Engine.Effect>, env: Vpn.ConnectEnv, cacheDir: string)
    ensures var end := Deliver(d, fx, env, cacheDir);
      end.Normal? ==> Vpn.UdpModeOf(end.value.prefs) == Vpn.UdpModeOf(d.prefs)
    decreases |fx|
  {
    if |fx| > 0 && fx[0].SendIntent? {
      match Vpn.OnStartCommand(d.svc, d.prefs, Some(ActionString(fx[0].action)), env, cacheDir)
      case Thrown =>
      case Normal(c) =>
        DeliverKeepsUdpMode(Device(c.out.svc, c.out.prefs), fx[1..], env, cacheDir);
    } else if |fx| > 0 {
      DeliverKeepsUdpMode(d, fx[1..], env, cacheDir);
    }
  }

  /**
   * The UDP mode reaches the configuration file: after "startCore" and
   * its intents, the next CONNECT whose interface and write succeed writes
   * the configuration for exactly the mode the call passed (or "tcp").
   */
  lemma StartCoreModeReachesConfig(app: Dispatch.App, call: Dispatch.MethodCall, env: Dispatch.CallEnv,
                                   svc: Vpn.Service, connectEnv: Vpn.ConnectEnv, cacheDir: string)
    requires call.name == "startCore" && Dispatch.StartArgsOf(call).Some?
    requires svc.nativeLoaded
    requires connectEnv.establish.Established? && connectEnv.writeOk
    ensures var r := Dispatch.OnMethodCall(app, call, env);
      var mid := Deliver(Device(svc, r.app.prefs), r.effects, connectEnv, cacheDir);
      && mid.Normal?
      && var c := Vpn.OnStartCommand(mid.value.svc, mid.value.prefs, Some(Vpn.ActionConnect), connectEnv, cacheDir);
         && c.Normal?
         && Vpn.WriteConfig(Vpn.ConfigPath(cacheDir), Dispatch.StartArgsOf(call).value.udpMode) in c.value.out.effects
         && forall i :: 0 <= i < |c.value.out.effects| && c.value.out.effects[i].WriteConfig? ==>
              c.value.out.effects[i].udpMode == Dispatch.StartArgsOf(call).value.udpMode
  {
    var r := Dispatch.OnMethodCall(app, call, env);
    StartCoreDisconnectsVpn(app, call, env, svc, connectEnv, cacheDir);
    UdpModeReachesService(app, call, env);
    DeliverKeepsUdpMode(Device(svc, r.app.prefs), r.effects, connectEnv, cacheDir);
  }
}
