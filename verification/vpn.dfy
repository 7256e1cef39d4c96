/**
 * The VPN service: CONNECT establishes the interface, writes the tunnel
 * configuration and starts the native tun-to-socks5 bridge; DISCONNECT
 * stops the bridge and drops the interface. The native calls are not
 * performed but returned as effects; whether they (and the interface
 * builder and the file write) succeed is a parameter.
 */
module Vpn {
  import opened Wrappers
  import Prefs

  const ActionConnect := "com.minizivpn.app.CONNECT"
  const ActionDisconnect := "com.minizivpn.app.DISCONNECT"

  // Android's Service.START_STICKY and Service.START_NOT_STICKY.
  const StartSticky := 1
  const StartNotSticky := 2

  const UdpModeKey := "udp_mode"
  const DefaultUdpMode := "tcp"
  const VpnRunningKey := "flutter.vpn_running"
  const ConfigFileName := "tunnel_config.yaml"

  /** An established VPN interface (a ParcelFileDescriptor) and its file descriptor number. */
  datatype Iface = Iface(fd: int)

  /**
   * The service's state: `vpnInterface`, and whether the native library
   * loaded when the class was initialised (a failed load is only logged).
   */
  datatype Service = Service(iface: Option<Iface>, nativeLoaded: bool)

  /** What `builder.establish()` does: throw, return null, or return an interface. */
  datatype Establish = EstablishThrows | NoInterface | Established(iface: Iface)

  /** The outcome of each fallible call `connect` makes. */
  datatype ConnectEnv = ConnectEnv(establish: Establish, writeOk: bool, nativeStartOk: bool)

  datatype Effect =
    | WriteConfig(path: string, udpMode: string) // configFile.writeText(ConfigText(udpMode))
    | NativeStart(path: string, fd: int)      // TProxyStartService(path, fd)
    | NativeStop                              // TProxyStopService()
    | Close(iface: Iface)                     // vpnInterface?.close()
    | StopSelf

  datatype Outcome = Outcome(svc: Service, prefs: Prefs.Store, effects: seq<Effect>)

  // ---------------------------------------------------------------- configuration text

  /** The tunnel configuration, one line per entry, after `trimIndent`. */
  function ConfigLines(udpMode: string): seq<string> {
    ConfigHead + ["  udp: " + udpMode] + ConfigTail
  }

  /** The lines before the socks5 section's `udp` line. */
  const ConfigHead: seq<string> := [
    "tunnel:",
    "  name: tun0",
    "  ipv4: 172.19.0.1",
    "",
    "socks5:",
    "  port: 7777",
    "  address: 127.0.0.1" ]

  /** The lines after it: the DNS mapping section. */
  const ConfigTail: seq<string> := [
    "",
    "mapdns:",
    "  address: 198.18.0.2",
    "  port: 53",
    "  network: 198.18.0.0",
    "  netmask: 255.254.0.0" ]

  function JoinLines(ls: seq<string>): string
    requires |ls| >= 1
  {
    if |ls| == 1 then ls[0] else ls[0] + "\n" + JoinLines(ls[1..])
  }

  function ConfigText(udpMode: string): string {
    JoinLines(ConfigLines(udpMode))
  }

  /** Cuts a text at every line break. */
  function SplitLines(s: string): (ls: seq<string>)
    ensures |ls| >= 1
  {
    if |s| == 0 then [""]
    else
      var rest := SplitLines(s[1..]);
      if s[0] == '\n' then [""] + rest else [[s[0]] + rest[0]] + rest[1..]
  }

  lemma {:induction false} SplitLinesNoBreak(l: string)
    requires '\n' !in l
    ensures SplitLines(l) == [l]
  {
    if |l| > 0 {
      SplitLinesNoBreak(l[1..]);
      assert [l[0]] + l[1..] == l;
    }
  }

  lemma {:induction false} SplitLinesAfterLine(l: string, t: string)
    requires '\n' !in l
    ensures SplitLines(l + "\n" + t) == [l] + SplitLines(t)
  {
    if |l| == 0 {
      assert l + "\n" + t == "\n" + t;
      assert ("\n" + t)[1..] == t;
    } else {
      assert (l + "\n" + t)[1..] == l[1..] + "\n" + t;
      SplitLinesAfterLine(l[1..], t);
      assert [l[0]] + l[1..] == l;
    }
  }

  /** Splitting undoes joining, for lines without breaks of their own. */
  lemma {:induction false} SplitJoin(ls: seq<string>)
    requires |ls| >= 1
    requires forall i :: 0 <= i < |ls| ==> '\n' !in ls[i]
    ensures SplitLines(JoinLines(ls)) == ls
  {
    if |ls| == 1 {
      SplitLinesNoBreak(ls[0]);
    } else {
      SplitLinesAfterLine(ls[0], JoinLines(ls[1..]));
      SplitJoin(ls[1..]);
    }
  }

  /**
   * The configuration file, read back line by line, is the fixed template
   * with the stored UDP mode on the socks5 section's `udp` line.
   */
  lemma ConfigTextLines(udpMode: string)
    requires '\n' !in udpMode && '\r' !in udpMode
    ensures SplitLines(ConfigText(udpMode)) == ConfigLines(udpMode)
    ensures SplitLines(ConfigText(udpMode))[7] == "  udp: " + udpMode
  {
    var ls := ConfigLines(udpMode);
    TemplateHasNoBreak();
    forall i | 0 <= i < |ls|
      ensures '\n' !in ls[i]
    {
      if i < 7 {
        assert ls[i] == ConfigHead[i];
      } else if i == 7 {
        assert forall k :: 0 <= k < |ls[7]| ==> ls[7][k] == ("  udp: " + udpMode)[k];
      } else {
        assert ls[i] == ConfigTail[i - 8];
      }
    }
    SplitJoin(ls);
  }

  lemma TemplateHasNoBreak()
    ensures forall i :: 0 <= i < |ConfigHead| ==> '\n' !in ConfigHead[i]
    ensures forall i :: 0 <= i < |ConfigTail| ==> '\n' !in ConfigTail[i]
  {
  }

  /** `prefs.getString("udp_mode", "tcp") ?: "tcp"`; `None` when the key holds a non-string (ClassCastException). */
  function UdpModeOf(prefs: Prefs.Store): Option<string> {
    Prefs.GetString(prefs, UdpModeKey, DefaultUdpMode)
  }

  // ---------------------------------------------------------------- transitions

  function ConfigPath(cacheDir: string): string {
    cacheDir + "/" + ConfigFileName
  }

  /** Every step of a connect from no interface succeeds: the interface, the UDP mode read, the write and the native start. */
  predicate ConnectSucceeds(svc: Service, prefs: Prefs.Store, env: ConnectEnv) {
    && svc.iface.None? && env.establish.Established? && UdpModeOf(prefs).Some?
    && env.writeOk && svc.nativeLoaded && env.nativeStartOk
  }

  /**
   * `connect`. A no-op when an interface exists. A null `establish` returns
   * without `stopSelf`; every other failure inside the `try` is caught and
   * ends in `stopSelf`. The interface, once
   * assigned, stays assigned; `vpn_running` becomes true only after the
   * native start returned.
   */
  function Connect(svc: Service, prefs: Prefs.Store, env: ConnectEnv, cacheDir: string): (r: Outcome)
    ensures svc.iface.Some? ==> r == Outcome(svc, prefs, [])
    ensures r.svc.nativeLoaded == svc.nativeLoaded
    ensures svc.iface.None? && env.establish.Established? ==> r.svc.iface == Some(env.establish.iface)
    ensures svc.iface.None? && !env.establish.Established? ==> r.svc.iface.None? && r.prefs == prefs
    ensures forall i :: 0 <= i < |r.effects| && r.effects[i].NativeStart? ==>
      svc.iface.None? && env.establish.Established? && r.effects[i].fd == env.establish.iface.fd
    ensures r.prefs != prefs ==>
      && svc.nativeLoaded && env.nativeStartOk
      && r.prefs == Prefs.PutFlag(prefs, VpnRunningKey, true)
      && NativeStart(ConfigPath(cacheDir), r.svc.iface.value.fd) in r.effects
      && StopSelf !in r.effects
    ensures ConnectSucceeds(svc, prefs, env) ==>
      && r.prefs == Prefs.PutFlag(prefs, VpnRunningKey, true)
      && WriteConfig(ConfigPath(cacheDir), UdpModeOf(prefs).value) in r.effects
      && NativeStart(ConfigPath(cacheDir), env.establish.iface.fd) in r.effects
      && StopSelf !in r.effects
    ensures !ConnectSucceeds(svc, prefs, env) ==> r.prefs == prefs
    ensures svc.iface.None? && env.establish.Established? && UdpModeOf(prefs).Some? && env.writeOk ==>
      WriteConfig(ConfigPath(cacheDir), UdpModeOf(prefs).value) in r.effects
    ensures forall i :: 0 <= i < |r.effects| && r.effects[i].WriteConfig? ==>
      r.effects[i].path == ConfigPath(cacheDir) && UdpModeOf(prefs) == Some(r.effects[i].udpMode)
    ensures UdpModeOf(r.prefs) == UdpModeOf(prefs)
    ensures svc.iface.None? && !env.establish.NoInterface? && !ConnectSucceeds(svc, prefs, env) ==>
      |r.effects| >= 1 && r.effects[|r.effects| - 1] == StopSelf
    ensures env.establish.NoInterface? ==> StopSelf !in r.effects
    ensures forall i, j :: 0 <= i < |r.effects| && 0 <= j < |r.effects| && r.effects[i].WriteConfig? && r.effects[j].NativeStart? ==> i < j
  {
    if svc.iface.Some? then Outcome(svc, prefs, [])
    else match env.establish
      case EstablishThrows => Outcome(svc, prefs, [StopSelf])
      case NoInterface => Outcome(svc.(iface := None), prefs, [])
      case Established(iface) =>
        var svc' := svc.(iface := Some(iface));
        match UdpModeOf(prefs)
        case None => Outcome(svc', prefs, [StopSelf])
        case Some(udpMode) =>
          var path := ConfigPath(cacheDir);
          if !env.writeOk then Outcome(svc', prefs, [StopSelf])
          else if !(svc.nativeLoaded && env.nativeStartOk) then
            Outcome(svc', prefs, [WriteConfig(path, udpMode), NativeStart(path, iface.fd), StopSelf])
          else
            Outcome(svc', Prefs.PutFlag(prefs, VpnRunningKey, true),
                    [WriteConfig(path, udpMode), NativeStart(path, iface.fd)])
  }

  /**
   * `disconnect`: stop the native bridge, close and forget the interface,
   * record `vpn_running = false`, stop the service. If the native library
   * never loaded, the first call throws and nothing after it happens.
   */
  function Disconnect(svc: Service, prefs: Prefs.Store): (r: Completion<Outcome>)
    ensures r.Thrown? <==> !svc.nativeLoaded
    ensures r.Normal? ==>
      && r.value.svc == Service(None, svc.nativeLoaded)
      && r.value.prefs == Prefs.PutFlag(prefs, VpnRunningKey, false)
      && |r.value.effects| >= 2
      && r.value.effects[0] == NativeStop
      && (svc.iface.Some? ==> Close(svc.iface.value) in r.value.effects)
      && r.value.effects[|r.value.effects| - 1] == StopSelf
  {
    if !svc.nativeLoaded then Thrown
    else
      var close := if svc.iface.Some? then [Close(svc.iface.value)] else [];
      Normal(Outcome(svc.(iface := None), Prefs.PutFlag(prefs, VpnRunningKey, false), [NativeStop] + close + [StopSelf]))
  }

  /** `onStartCommand`'s result: the new state and the returned start mode. */
  datatype Command = Command(out: Outcome, code: int)

  /** `onStartCommand`: dispatch on the intent's action (absent when the intent or its action is null). */
  function OnStartCommand(svc: Service, prefs: Prefs.Store, action: Option<string>, env: ConnectEnv, cacheDir: string)
    : (r: Completion<Command>)
    ensures action == Some(ActionConnect) ==> r == Normal(Command(Connect(svc, prefs, env, cacheDir), StartSticky))
    ensures action == Some(ActionDisconnect) ==>
      (r.Thrown? <==> !svc.nativeLoaded) && (r.Normal? ==> r.value.code == StartNotSticky && r.value.out.svc.iface.None?)
    ensures action == Some(ActionDisconnect) && svc.nativeLoaded ==>
      r == Normal(Command(Disconnect(svc, prefs).value, StartNotSticky))
    ensures action != Some(ActionConnect) && action != Some(ActionDisconnect) ==>
      r == Normal(Command(Outcome(svc, prefs, []), StartNotSticky))
  {
    if action == Some(ActionConnect) then Normal(Command(Connect(svc, prefs, env, cacheDir), StartSticky))
    else if action == Some(ActionDisconnect) then
      match Disconnect(svc, prefs)
      case Thrown => Thrown
      case Normal(out) => Normal(Command(out, StartNotSticky))
    else Normal(Command(Outcome(svc, prefs, []), StartNotSticky))
  }

  // ---------------------------------------------------------------- properties

  function CountNativeStarts(fx: seq<Effect>): (n: nat)
    ensures n <= |fx|
  {
    if |fx| == 0 then 0 else (if fx[0].NativeStart? then 1 else 0) + CountNativeStarts(fx[1..])
  }

  lemma {:induction false} CountNativeStartsAppend(a: seq<Effect>, b: seq<Effect>)
    ensures CountNativeStarts(a + b) == CountNativeStarts(a) + CountNativeStarts(b)
  {
    if |a| == 0 {
      assert a + b == b;
    } else {
      assert (a + b)[1..] == a[1..] + b;
      CountNativeStartsAppend(a[1..], b);
    }
  }

  /** One connect starts the native bridge at most once, and only when it leaves an interface assigned. */
  lemma ConnectStartsAtMostOnce(svc: Service, prefs: Prefs.Store, env: ConnectEnv, cacheDir: string)
    ensures var r := Connect(svc, prefs, env, cacheDir);
      CountNativeStarts(r.effects) <= 1 && (CountNativeStarts(r.effects) == 1 ==> r.svc.iface.Some?)
  {
    var r := Connect(svc, prefs, env, cacheDir);
    if |r.effects| > 0 {
      var t := r.effects[1..];
      if |t| > 0 {
        assert CountNativeStarts(t) == (if t[0].NativeStart? then 1 else 0) + CountNativeStarts(t[1..]);
        if |t[1..]| > 0 {
          assert CountNativeStarts(t[1..]) == (if t[1].NativeStart? then 1 else 0) + CountNativeStarts(t[2..]);
        }
      }
    }
  }

  /**
   * Repeated CONNECT never starts a second native bridge: two connects in
   * a row start it at most once, and the second is a no-op once an
   * interface exists.
   */
  lemma ConnectTwiceStartsOnce(svc: Service, prefs: Prefs.Store, e1: ConnectEnv, e2: ConnectEnv, cacheDir: string)
    ensures var r1 := Connect(svc, prefs, e1, cacheDir);
      var r2 := Connect(r1.svc, r1.prefs, e2, cacheDir);
      && (r1.svc.iface.Some? ==> r2 == Outcome(r1.svc, r1.prefs, []))
      && CountNativeStarts(r1.effects + r2.effects) <= 1
  {
    var r1 := Connect(svc, prefs, e1, cacheDir);
    var r2 := Connect(r1.svc, r1.prefs, e2, cacheDir);
    CountNativeStartsAppend(r1.effects, r2.effects);
    ConnectStartsAtMostOnce(svc, prefs, e1, cacheDir);
    ConnectStartsAtMostOnce(r1.svc, r1.prefs, e2, cacheDir);
  }

  /** Disconnecting twice leaves the state that disconnecting once does. */
  lemma DisconnectIdempotent(svc: Service, prefs: Prefs.Store)
    requires svc.nativeLoaded
    ensures Disconnect(svc, prefs).Normal?
    ensures var once := Disconnect(svc, prefs).value;
      var twice := Disconnect(once.svc, once.prefs);
      twice.Normal? && twice.value.svc == once.svc && twice.value.prefs == once.prefs
  {
  }
}
