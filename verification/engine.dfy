/**
 * The activity's fleet lifecycle: `stopEngine` tears down every tracked
 * process and sweeps the executables by name; `startEngine` tears down,
 * spawns four tunnel clients and then the balancer, and rolls back to an
 * empty fleet if anything on the way throws.
 *
 * OS processes are opaque handles drawn from a counter, so every spawn
 * yields a handle never seen before. Calls into the OS are not performed
 * but returned, in order, as a list of effects.
 */
module Engine {
  import opened Wrappers
  import Decimal
  import Prefs
  import Launch

  type Handle = nat

  /** A tracked process: its handle and what it was launched as (which fixes its command and log tag). */
  datatype Proc = Proc(handle: Handle, spec: Launch.Spec)

  /** The tracked `processes` list and the next unused handle. */
  datatype Fleet = Fleet(processes: seq<Proc>, next: Handle)

  /** Actions of the intents sent to the VPN service. */
  datatype Action = Connect | Disconnect

  datatype Effect =
    | SendIntent(action: Action)                // startService with an intent for the VPN service
    | AskVpnPermission                           // startActivityForResult with the system's consent dialog
    | Destroy(handle: Handle)                    // destroyForcibly (destroy before API 26), failures swallowed
    | Exec(command: seq<string>)                 // Runtime.exec(command).waitFor(), failures swallowed
    | Spawn(handle: Handle, spec: Launch.Spec)   // ProcessBuilder(Launch.CommandOf(spec)).start()
    | Watch(handle: Handle, tag: string)         // startLogger: output reader and exit watcher

  /** What the method channel answers: `success`, `error` or `notImplemented`. */
  datatype Reply = Success(value: string) | Error(code: string) | NotImplemented

  /** Handles are unique within the fleet and all were issued before `next`. */
  predicate Valid(f: Fleet) {
    && (forall i, j :: 0 <= i < j < |f.processes| ==> f.processes[i].handle != f.processes[j].handle)
    && (forall i :: 0 <= i < |f.processes| ==> f.processes[i].handle < f.next)
  }

  // ---------------------------------------------------------------- stop

  /**
   * The clean-up sweep: one shell command running `pkill -9 <name>` for each
   * name, separated by "; ", i.e. "pkill -9 libuz; pkill -9 libload;
   * pkill -9 libuz.so; pkill -9 libload.so".
   */
  const SweepNames: seq<string> := ["libuz", "libload", "libuz.so", "libload.so"]

  function KillScript(names: seq<string>): string {
    if |names| == 0 then ""
    else if |names| == 1 then "pkill -9 " + names[0]
    else "pkill -9 " + names[0] + "; " + KillScript(names[1..])
  }

  const SweepCommand: seq<string> := ["sh", "-c", KillScript(SweepNames)]

  /** The sweep names both executables the engine launches, and nothing that is not a prefix of one of them. */
  lemma SweepCoversExecutables()
    ensures Launch.TunnelExe in SweepNames && Launch.BalancerExe in SweepNames
    ensures forall n :: n in SweepNames ==> n <= Launch.TunnelExe || n <= Launch.BalancerExe
  {
  }

  function DestroyAll(ps: seq<Proc>): (fx: seq<Effect>)
    ensures |fx| == |ps|
    ensures forall i :: 0 <= i < |ps| ==> fx[i] == Destroy(ps[i].handle)
  {
    seq(|ps|, i requires 0 <= i < |ps| => Destroy(ps[i].handle))
  }

  datatype Step = Step(fleet: Fleet, effects: seq<Effect>)

  /**
   * `stopEngine`: disconnect the VPN, destroy every tracked process in
   * order, forget them all, then run the kill-by-name sweep, always.
   */
  function StopEngine(f: Fleet): (r: Step)
    ensures r.fleet.processes == [] && r.fleet.next == f.next
    ensures |r.effects| == |f.processes| + 2
    ensures r.effects[0] == SendIntent(Disconnect)
    ensures forall i :: 0 <= i < |f.processes| ==> r.effects[1 + i] == Destroy(f.processes[i].handle)
    ensures r.effects[|r.effects| - 1] == Exec(SweepCommand)
    ensures forall i :: 0 <= i < |r.effects| ==> !r.effects[i].Spawn?
  {
    Step(Fleet([], f.next), [SendIntent(Disconnect)] + DestroyAll(f.processes) + [Exec(SweepCommand)])
  }

  /** Every handle that was tracked receives a destroy request. */
  lemma StopDestroysEveryHandle(f: Fleet, p: Proc)
    requires p in f.processes
    ensures Destroy(p.handle) in StopEngine(f).effects
  {
    var i :| 0 <= i < |f.processes| && f.processes[i] == p;
    assert StopEngine(f).effects[1 + i] == Destroy(p.handle);
  }

  /** Stopping twice leaves the state of stopping once; the second stop only re-sends the intent and re-sweeps. */
  lemma StopIdempotent(f: Fleet)
    ensures StopEngine(StopEngine(f).fleet).fleet == StopEngine(f).fleet
    ensures StopEngine(StopEngine(f).fleet).effects == [SendIntent(Disconnect), Exec(SweepCommand)]
  {
  }

  // ---------------------------------------------------------------- start

  /** Where an exception interrupts `startEngine`, if anywhere. */
  datatype Fault =
    | NoFault
    | TunnelSpawn(index: nat)   // the tunnel spawn at this loop index throws
    | WarmUp                    // the one-second warm-up sleep is interrupted
    | BalancerSpawn             // the balancer spawn throws

  /** The fault actually interrupts the four-tunnel start sequence. */
  predicate Aborts(fault: Fault) {
    fault.WarmUp? || fault.BalancerSpawn? || (fault.TunnelSpawn? && fault.index < |Launch.TunnelPorts|)
  }

  const UdpModeKey := "udp_mode"
  const RunningMessage := "Turbo Engine Running (4 Cores + LB:7777)"
  const StartErrorCode := "START_ERR"

  function TunnelProc(libUz: string, w: Launch.Windows, port: nat, h: Handle): Proc {
    Proc(h, Launch.TunnelSpec(libUz, port, w))
  }

  /** Spawn, then attach the log watchers, for each process in order. */
  function SpawnEffects(ps: seq<Proc>): (fx: seq<Effect>)
  {
    if |ps| == 0 then []
    else [Spawn(ps[0].handle, ps[0].spec), Watch(ps[0].handle, Launch.TagOf(ps[0].spec))] + SpawnEffects(ps[1..])
  }

  datatype Spawned = Spawned(procs: seq<Proc>, targets: seq<string>, failed: bool)

  /**
   * The tunnel loop from loop index `index` on: spawn a client for each
   * port with the next handle, track it, watch it and record its endpoint
   * as a balancer target, until a spawn throws.
   */
  function SpawnTunnels(libUz: string, w: Launch.Windows, ports: seq<nat>, index: nat, next: Handle, fault: Fault)
    : (r: Spawned)
    ensures |r.procs| == |r.targets| <= |ports|
    ensures r.failed <==> fault.TunnelSpawn? && index <= fault.index < index + |ports|
    ensures r.failed ==> |r.procs| == fault.index - index
    ensures !r.failed ==> |r.procs| == |ports|
    ensures forall k :: 0 <= k < |r.procs| ==> r.procs[k] == TunnelProc(libUz, w, ports[k], next + k)
    ensures forall k :: 0 <= k < |r.targets| ==> r.targets[k] == Launch.Endpoint(ports[k])
    decreases |ports|
  {
    if |ports| == 0 then Spawned([], [], false)
    else if fault == TunnelSpawn(index) then Spawned([], [], true)
    else
      var p := TunnelProc(libUz, w, ports[0], next);
      var rest := SpawnTunnels(libUz, w, ports[1..], index + 1, next + 1, fault);
      var procs := [p] + rest.procs;
      forall k | 0 <= k < |procs|
        ensures procs[k] == TunnelProc(libUz, w, ports[k], next + k)
      {
        if k > 0 {
          assert procs[k] == rest.procs[k - 1];
          assert ports[1..][k - 1] == ports[k];
        }
      }
      Spawned(procs, [Launch.Endpoint(ports[0])] + rest.targets, rest.failed)
  }

  /**
   * Everything inside the `try`: the tunnel loop, the warm-up, then the
   * balancer over the recorded targets. `failed` when any step throws;
   * `procs` are then the processes spawned before it did.
   */
  function LaunchFleet(next: Handle, libDir: string, multiplier: real, fault: Fault): (r: Spawned)
    ensures r.failed <==> Aborts(fault)
    ensures forall i :: 0 <= i < |r.procs| ==> r.procs[i].handle == next + i
    ensures !r.failed ==> |r.procs| == |Launch.TunnelPorts| + 1
    ensures r.failed && fault.TunnelSpawn? ==> |r.procs| == fault.index
    ensures r.failed && !fault.TunnelSpawn? ==> |r.procs| == |Launch.TunnelPorts|
  {
    var libUz := Launch.LibPath(libDir, Launch.TunnelExe);
    var libLoad := Launch.LibPath(libDir, Launch.BalancerExe);
    var t := SpawnTunnels(libUz, Launch.WindowsFor(multiplier), Launch.TunnelPorts, 0, next, fault);
    if t.failed || fault == WarmUp || fault == BalancerSpawn then
      t.(failed := true)
    else
      var lb := Proc(next + |t.procs|, Launch.BalancerSpec(libLoad, t.targets));
      var procs := t.procs + [lb];
      assert forall i :: 0 <= i < |procs| ==> procs[i].handle == next + i by {
        forall i | 0 <= i < |procs|
          ensures procs[i].handle == next + i
        {
          if i < |t.procs| {
            assert procs[i] == t.procs[i];
          }
        }
      }
      Spawned(procs, t.targets, false)
  }

  /** The outcome of the `try`/`catch` block: the fleet left tracked, the answer, and the effects on the way. */
  datatype Attempt = Attempt(fleet: Fleet, reply: Reply, effects: seq<Effect>)

  /**
   * Launch with handles from `next` on; if anything throws, run the full
   * teardown over whatever was spawned and answer START_ERR.
   */
  function TryLaunch(next: Handle, libDir: string, multiplier: real, fault: Fault): (r: Attempt)
    ensures r.fleet.next >= next
    ensures forall i :: 0 <= i < |r.fleet.processes| ==> next <= r.fleet.processes[i].handle < r.fleet.next
    ensures Aborts(fault) ==> r.reply == Error(StartErrorCode) && r.fleet.processes == []
    ensures !Aborts(fault) ==> r.reply == Success(RunningMessage) && |r.fleet.processes| == 5
  {
    var l := LaunchFleet(next, libDir, multiplier, fault);
    var launched := Fleet(l.procs, next + |l.procs|);
    if l.failed then
      var rollback := StopEngine(launched);
      Attempt(rollback.fleet, Error(StartErrorCode), SpawnEffects(l.procs) + rollback.effects)
    else
      Attempt(launched, Success(RunningMessage), SpawnEffects(l.procs))
  }

  datatype Started = Started(fleet: Fleet, prefs: Prefs.Store, reply: Reply, effects: seq<Effect>)

  /**
   * `startEngine`: tear down, record the UDP mode for the VPN service,
   * then attempt the launch. Only the multiplier and the UDP mode matter:
   * the server, password, obfuscation key and port range are hardcoded.
   */
  function StartEngine(f: Fleet, prefs: Prefs.Store, libDir: string, multiplier: real, udpMode: string, fault: Fault)
    : (r: Started)
    ensures StopEngine(f).effects <= r.effects
    ensures r.prefs == Prefs.PutString(prefs, UdpModeKey, udpMode)
    ensures r.fleet.next >= f.next
    ensures forall i :: 0 <= i < |r.fleet.processes| ==> f.next <= r.fleet.processes[i].handle < r.fleet.next
    ensures Aborts(fault) ==> r.reply == Error(StartErrorCode) && r.fleet.processes == []
    ensures !Aborts(fault) ==> r.reply == Success(RunningMessage) && |r.fleet.processes| == 5
  {
    var cleaned := StopEngine(f);
    var attempt := TryLaunch(f.next, libDir, multiplier, fault);
    Started(attempt.fleet, Prefs.PutString(prefs, UdpModeKey, udpMode), attempt.reply, cleaned.effects + attempt.effects)
  }

  // ---------------------------------------------------------------- properties

  /** SpawnEffects holds exactly a Spawn and a Watch, with the process's own tag, for each process. */
  lemma {:induction false} SpawnEffectsContent(ps: seq<Proc>, e: Effect)
    ensures e in SpawnEffects(ps) <==>
      exists k :: 0 <= k < |ps| && (e == Spawn(ps[k].handle, ps[k].spec) || e == Watch(ps[k].handle, Launch.TagOf(ps[k].spec)))
    decreases |ps|
  {
    if |ps| > 0 {
      SpawnEffectsContent(ps[1..], e);
      if e in SpawnEffects(ps[1..]) {
        var k :| 0 <= k < |ps[1..]| && (e == Spawn(ps[1..][k].handle, ps[1..][k].spec) || e == Watch(ps[1..][k].handle, Launch.TagOf(ps[1..][k].spec)));
        assert ps[1..][k] == ps[k + 1];
      }
      if exists k :: 0 <= k < |ps| && (e == Spawn(ps[k].handle, ps[k].spec) || e == Watch(ps[k].handle, Launch.TagOf(ps[k].spec))) {
        var k :| 0 <= k < |ps| && (e == Spawn(ps[k].handle, ps[k].spec) || e == Watch(ps[k].handle, Launch.TagOf(ps[k].spec)));
        if k > 0 {
          assert ps[k] == ps[1..][k - 1];
        }
      }
    }
  }

  /** A launch that does not throw spawns the tunnels for 20080..20083 in order, then the balancer over their endpoints. */
  lemma LaunchFleetShape(next: Handle, libDir: string, multiplier: real, fault: Fault)
    requires !Aborts(fault)
    ensures var l := LaunchFleet(next, libDir, multiplier, fault);
      var w := Launch.WindowsFor(multiplier);
      && |l.procs| == |Launch.TunnelPorts| + 1
      && (forall i :: 0 <= i < |Launch.TunnelPorts| ==>
            l.procs[i] == Proc(next + i, Launch.TunnelSpec(Launch.LibPath(libDir, Launch.TunnelExe), Launch.TunnelPorts[i], w)))
      && l.procs[4] == Proc(next + 4, Launch.BalancerSpec(Launch.LibPath(libDir, Launch.BalancerExe), Launch.Targets(Launch.TunnelPorts)))
  {
    var libUz := Launch.LibPath(libDir, Launch.TunnelExe);
    var libLoad := Launch.LibPath(libDir, Launch.BalancerExe);
    var w := Launch.WindowsFor(multiplier);
    var t := SpawnTunnels(libUz, w, Launch.TunnelPorts, 0, next, fault);
    assert !t.failed && |t.targets| == |Launch.TunnelPorts|;
    var l := LaunchFleet(next, libDir, multiplier, fault);
    assert l.procs == t.procs + [Proc(next + 4, Launch.BalancerSpec(libLoad, t.targets))];
    assert t.targets == Launch.Targets(Launch.TunnelPorts) by {
      forall k | 0 <= k < |t.targets|
        ensures t.targets[k] == Launch.Targets(Launch.TunnelPorts)[k]
      {
      }
    }
    forall i | 0 <= i < |Launch.TunnelPorts|
      ensures l.procs[i] == Proc(next + i, Launch.TunnelSpec(libUz, Launch.TunnelPorts[i], w))
    {
      assert l.procs[i] == t.procs[i];
    }
  }

  /**
   * A successful start tracks exactly five processes: the tunnels for
   * 20080..20083 in order, with consecutive fresh handles, then the
   * balancer over those tunnels' endpoints.
   */
  lemma StartedFleetShape(f: Fleet, prefs: Prefs.Store, libDir: string, multiplier: real, udpMode: string, fault: Fault)
    requires !Aborts(fault)
    ensures var r := StartEngine(f, prefs, libDir, multiplier, udpMode, fault);
      var w := Launch.WindowsFor(multiplier);
      && |r.fleet.processes| == |Launch.TunnelPorts| + 1
      && r.fleet.next == f.next + |r.fleet.processes|
      && (forall i :: 0 <= i < |Launch.TunnelPorts| ==>
            r.fleet.processes[i] == Proc(f.next + i, Launch.TunnelSpec(Launch.LibPath(libDir, Launch.TunnelExe), Launch.TunnelPorts[i], w)))
      && r.fleet.processes[4] == Proc(f.next + 4, Launch.BalancerSpec(Launch.LibPath(libDir, Launch.BalancerExe), Launch.Targets(Launch.TunnelPorts)))
  {
    LaunchFleetShape(f.next, libDir, multiplier, fault);
    assert StartEngine(f, prefs, libDir, multiplier, udpMode, fault).fleet.processes
        == LaunchFleet(f.next, libDir, multiplier, fault).procs;
  }

  /**
   * In a running fleet each tunnel's socks5 listen address is the balancer
   * target recorded for it, at the same position; the balancer has one
   * target per tunnel; the tags are "HY-<port>" and "LB-7777".
   */
  lemma ListenAddressesAreTargets(f: Fleet, prefs: Prefs.Store, libDir: string, multiplier: real, udpMode: string, fault: Fault)
    requires !Aborts(fault)
    ensures var ps := StartEngine(f, prefs, libDir, multiplier, udpMode, fault).fleet.processes;
      var lb := Launch.CommandOf(ps[4].spec);
      && |lb| == 4 + 4
      && Launch.TagOf(ps[4].spec) == Launch.BalancerTag
      && forall i :: 0 <= i < 4 ==>
           && ps[i].spec.TunnelSpec?
           && Launch.TunnelConfigFor(ps[i].spec.port, ps[i].spec.windows).listen == lb[4 + i]
           && Launch.ParseEndpoint(lb[4 + i]) == Some(Launch.TunnelPorts[i])
           && Launch.TagOf(ps[i].spec) == "HY-" + Decimal.NatToString(Launch.TunnelPorts[i])
  {
    StartedFleetShape(f, prefs, libDir, multiplier, udpMode, fault);
    var ps := StartEngine(f, prefs, libDir, multiplier, udpMode, fault).fleet.processes;
    Launch.BalancerCommandReadsBack(Launch.LibPath(libDir, Launch.BalancerExe), Launch.TunnelPorts);
    var lb := Launch.CommandOf(ps[4].spec);
    forall i | 0 <= i < 4
      ensures Launch.TunnelConfigFor(ps[i].spec.port, ps[i].spec.windows).listen == lb[4 + i]
    {
      assert lb[4 + i] == Launch.Targets(Launch.TunnelPorts)[i];
    }
  }

  /** A start keeps the handle invariant and keeps no handle of the fleet it replaced. */
  lemma NoHandleSurvivesRestart(f: Fleet, prefs: Prefs.Store, libDir: string, multiplier: real, udpMode: string, fault: Fault)
    requires Valid(f)
    ensures var r := StartEngine(f, prefs, libDir, multiplier, udpMode, fault);
      && Valid(r.fleet)
      && forall i, j :: 0 <= i < |f.processes| && 0 <= j < |r.fleet.processes| ==>
           f.processes[i].handle != r.fleet.processes[j].handle
  {
    if !Aborts(fault) {
      StartedFleetShape(f, prefs, libDir, multiplier, udpMode, fault);
    }
  }

  /**
   * A failed start answers START_ERR and tracks nothing, and every process
   * it spawned is sent a destroy request after its spawn.
   */
  lemma FailedStartLeavesNoOrphan(f: Fleet, prefs: Prefs.Store, libDir: string, multiplier: real, udpMode: string, fault: Fault)
    requires Aborts(fault)
    ensures var r := StartEngine(f, prefs, libDir, multiplier, udpMode, fault);
      && r.reply == Error(StartErrorCode)
      && r.fleet.processes == []
      && NoOrphan(r.effects)
  {
    var procs := FailedStartEffects(f, prefs, libDir, multiplier, udpMode, fault);
    SpawnThenStopLeavesNoOrphan(StopEngine(f).effects, procs, f.next + |procs|);
  }

  /** A start that throws emits the first teardown, its spawns, then the teardown of what it spawned. */
  lemma FailedStartEffects(f: Fleet, prefs: Prefs.Store, libDir: string, multiplier: real, udpMode: string, fault: Fault)
    returns (procs: seq<Proc>)
    requires Aborts(fault)
    ensures StartEngine(f, prefs, libDir, multiplier, udpMode, fault).effects
         == StopEngine(f).effects + (SpawnEffects(procs) + StopEngine(Fleet(procs, f.next + |procs|)).effects)
  {
    procs := LaunchFleet(f.next, libDir, multiplier, fault).procs;
    FailedLaunchEffects(f.next, libDir, multiplier, fault);
    StartEffectsSplit(f, prefs, libDir, multiplier, udpMode, fault);
  }

  /** A launch that throws emits its spawns and then the full teardown of what it spawned. */
  lemma FailedLaunchEffects(next: Handle, libDir: string, multiplier: real, fault: Fault)
    requires Aborts(fault)
    ensures var l := LaunchFleet(next, libDir, multiplier, fault);
      TryLaunch(next, libDir, multiplier, fault).effects
        == SpawnEffects(l.procs) + StopEngine(Fleet(l.procs, next + |l.procs|)).effects
  {
  }

  /** Every Spawn in `fx` is followed, later in `fx`, by a destroy request for the same handle. */
  ghost predicate NoOrphan(fx: seq<Effect>) {
    forall i :: 0 <= i < |fx| && fx[i].Spawn? ==> exists j :: i < j < |fx| && fx[j] == Destroy(fx[i].handle)
  }

  lemma SpawnThenStopLeavesNoOrphan(pre: seq<Effect>, procs: seq<Proc>, next: Handle)
    requires forall i :: 0 <= i < |pre| ==> !pre[i].Spawn?
    ensures NoOrphan(pre + (SpawnEffects(procs) + StopEngine(Fleet(procs, next)).effects))
  {
    var mid := SpawnEffects(procs);
    var post := StopEngine(Fleet(procs, next)).effects;
    forall i | 0 <= i < |mid| && mid[i].Spawn?
      ensures exists j :: 0 <= j < |post| && post[j] == Destroy(mid[i].handle)
    {
      var k := SpawnIsDestroyed(procs, next, mid[i]);
    }
    NoOrphanOfSegments(pre, mid, post);
  }

  /** A Spawn-free prefix, then spawns each destroyed somewhere in a Spawn-free suffix, leave no orphan. */
  lemma NoOrphanOfSegments(pre: seq<Effect>, mid: seq<Effect>, post: seq<Effect>)
    requires forall i :: 0 <= i < |pre| ==> !pre[i].Spawn?
    requires forall i :: 0 <= i < |post| ==> !post[i].Spawn?
    requires forall i :: 0 <= i < |mid| && mid[i].Spawn? ==> exists j :: 0 <= j < |post| && post[j] == Destroy(mid[i].handle)
    ensures NoOrphan(pre + (mid + post))
  {
    var fx := pre + (mid + post);
    var a := |pre|;
    var b := a + |mid|;
    forall i | 0 <= i < a
      ensures !fx[i].Spawn?
    {
      assert fx[i] == pre[i];
    }
    forall i | b <= i < |fx|
      ensures !fx[i].Spawn?
    {
      assert fx[i] == post[i - b];
    }
    forall i | a <= i < b && fx[i].Spawn?
      ensures exists j :: i < j < |fx| && fx[j] == Destroy(fx[i].handle)
    {
      assert fx[i] == mid[i - a];
      var j :| 0 <= j < |post| && post[j] == Destroy(mid[i - a].handle);
      assert fx[b + j] == post[j];
    }
  }

  /** The stop that follows a spawn sequence destroys the handle of each Spawn in it, at the position of its process. */
  lemma SpawnIsDestroyed(procs: seq<Proc>, next: Handle, e: Effect) returns (k: nat)
    requires e in SpawnEffects(procs) && e.Spawn?
    ensures k < |procs| && StopEngine(Fleet(procs, next)).effects[1 + k] == Destroy(e.handle)
  {
    SpawnEffectsContent(procs, e);
    k :| 0 <= k < |procs| && (e == Spawn(procs[k].handle, procs[k].spec) || e == Watch(procs[k].handle, Launch.TagOf(procs[k].spec)));
  }

  /** After a successful start every spawned process is tracked, and every tracked process is spawned and watched under its tag. */
  lemma StartedProcessesAreTracked(f: Fleet, prefs: Prefs.Store, libDir: string, multiplier: real, udpMode: string, fault: Fault)
    requires !Aborts(fault)
    ensures var r := StartEngine(f, prefs, libDir, multiplier, udpMode, fault);
      && (forall e :: e in r.effects && e.Spawn? ==> Proc(e.handle, e.spec) in r.fleet.processes)
      && (forall p :: p in r.fleet.processes ==>
            Spawn(p.handle, p.spec) in r.effects && Watch(p.handle, Launch.TagOf(p.spec)) in r.effects)
  {
    var r := StartEngine(f, prefs, libDir, multiplier, udpMode, fault);
    var cleaned := StopEngine(f);
    var procs := LaunchFleet(f.next, libDir, multiplier, fault).procs;
    StartEffectsSplit(f, prefs, libDir, multiplier, udpMode, fault);
    assert TryLaunch(f.next, libDir, multiplier, fault).effects == SpawnEffects(procs);
    assert r.fleet.processes == procs;
    forall e | e in r.effects && e.Spawn?
      ensures Proc(e.handle, e.spec) in r.fleet.processes
    {
      SpawnEffectsContent(procs, e);
      var k :| 0 <= k < |procs| && (e == Spawn(procs[k].handle, procs[k].spec) || e == Watch(procs[k].handle, Launch.TagOf(procs[k].spec)));
      assert Proc(e.handle, e.spec) == procs[k];
    }
    forall p | p in r.fleet.processes
      ensures Spawn(p.handle, p.spec) in r.effects && Watch(p.handle, Launch.TagOf(p.spec)) in r.effects
    {
      SpawnEffectsContent(procs, Spawn(p.handle, p.spec));
      SpawnEffectsContent(procs, Watch(p.handle, Launch.TagOf(p.spec)));
    }
  }

  /**
   * Starting over a live fleet is stopping it and then starting from
   * empty: same fleet, preferences and reply.
   */
  lemma RestartIsStopThenStart(f: Fleet, prefs: Prefs.Store, libDir: string, multiplier: real, udpMode: string, fault: Fault)
    ensures var direct := StartEngine(f, prefs, libDir, multiplier, udpMode, fault);
      var after := StartEngine(StopEngine(f).fleet, prefs, libDir, multiplier, udpMode, fault);
      direct.fleet == after.fleet && direct.prefs == after.prefs && direct.reply == after.reply
  {
  }

  /** The effects differ only in the stop's own destroy requests plus the extra intent and sweep it sends. */
  lemma RestartEffects(f: Fleet, prefs: Prefs.Store, libDir: string, multiplier: real, udpMode: string, fault: Fault)
    ensures var direct := StartEngine(f, prefs, libDir, multiplier, udpMode, fault);
      var stopped := StopEngine(f);
      var after := StartEngine(stopped.fleet, prefs, libDir, multiplier, udpMode, fault);
      && after.effects[..2] == [SendIntent(Disconnect), Exec(SweepCommand)]
      && direct.effects == stopped.effects + after.effects[2..]
  {
    var stopped := StopEngine(f);
    var rest := TryLaunch(f.next, libDir, multiplier, fault).effects;
    StartEffectsSplit(f, prefs, libDir, multiplier, udpMode, fault);
    StartEffectsSplit(stopped.fleet, prefs, libDir, multiplier, udpMode, fault);
    var after := StartEngine(stopped.fleet, prefs, libDir, multiplier, udpMode, fault);
    assert StopEngine(stopped.fleet).effects == [SendIntent(Disconnect), Exec(SweepCommand)];
    assert after.effects[2..] == rest;
  }

  lemma StartEffectsSplit(f: Fleet, prefs: Prefs.Store, libDir: string, multiplier: real, udpMode: string, fault: Fault)
    ensures StartEngine(f, prefs, libDir, multiplier, udpMode, fault).effects
         == StopEngine(f).effects + TryLaunch(f.next, libDir, multiplier, fault).effects
  {
  }
}
