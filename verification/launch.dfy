/**
 * What the activity hands to the operating system when it launches the
 * fleet: the hardcoded tunnel credentials, the fixed ports, the loopback
 * endpoints, log tags, receive-window sizing and the two command vectors.
 */
module Launch {
  import opened Wrappers
  import Decimal

  // Credentials the engine uses whatever the caller passed in.
  const HardIp := "103.175.216.5"
  const HardPass := "maslexx68"
  const HardObfs := "hu``hqb`c"
  const HardRange := "6000-19999"

  /** One tunnel client per port, spawned in this order. */
  const TunnelPorts: seq<nat> := [20080, 20081, 20082, 20083]
  const BalancerPort: nat := 7777
  const LoopbackHost := "127.0.0.1"

  const TunnelExe := "libuz.so"
  const BalancerExe := "libload.so"

  const BaseConn: int := 131072
  const BaseWin: int := 327680

  // The range of a JVM `Int`.
  const MinInt: int := -0x8000_0000
  const MaxInt: int := 0x7fff_ffff

  /** `File(dir, name).absolutePath` for an absolute directory without a trailing slash. */
  function LibPath(dir: string, name: string): string {
    dir + "/" + name
  }

  /** "127.0.0.1:<port>": both a tunnel's socks5 listen address and a balancer target. */
  function Endpoint(port: nat): string {
    LoopbackHost + ":" + Decimal.NatToString(port)
  }

  function ParseEndpoint(s: string): Option<nat> {
    var prefix := LoopbackHost + ":";
    if |s| >= |prefix| && s[..|prefix|] == prefix then Decimal.ParseNat(s[|prefix|..]) else None
  }

  lemma ParseEndpointOfEndpoint(port: nat)
    ensures ParseEndpoint(Endpoint(port)) == Some(port)
  {
    var prefix := LoopbackHost + ":";
    assert Endpoint(port)[..|prefix|] == prefix;
    assert Endpoint(port)[|prefix|..] == Decimal.NatToString(port);
    Decimal.ParseNatToString(port);
  }

  lemma EndpointInjective(p: nat, q: nat)
    ensures Endpoint(p) == Endpoint(q) <==> p == q
  {
    if Endpoint(p) == Endpoint(q) {
      ParseEndpointOfEndpoint(p);
      ParseEndpointOfEndpoint(q);
    }
  }

  /** The balancer's targets: one endpoint per port, in port order. */
  function Targets(ports: seq<nat>): (ts: seq<string>)
    ensures |ts| == |ports|
    ensures forall i :: 0 <= i < |ports| ==> ParseEndpoint(ts[i]) == Some(ports[i])
  {
    var ts := seq(|ports|, i requires 0 <= i < |ports| => Endpoint(ports[i]));
    forall i | 0 <= i < |ports|
      ensures ParseEndpoint(ts[i]) == Some(ports[i])
    {
      ParseEndpointOfEndpoint(ports[i]);
    }
    ts
  }

  /** Log tag of the tunnel listening on `port`. */
  function TunnelTag(port: nat): string {
    "HY-" + Decimal.NatToString(port)
  }

  const BalancerTag := "LB-7777"
  const BalancerPortArg := "7777"

  /** Every tag names the process it belongs to: distinct ports, distinct tags, none equal to the balancer's. */
  lemma TagsDistinct(p: nat, q: nat)
    ensures TunnelTag(p) == TunnelTag(q) <==> p == q
    ensures TunnelTag(p) != BalancerTag
  {
    if TunnelTag(p) == TunnelTag(q) {
      assert TunnelTag(p)[3..] == Decimal.NatToString(p);
      assert TunnelTag(q)[3..] == Decimal.NatToString(q);
      Decimal.NatToStringInjective(p, q);
    }
    assert TunnelTag(p)[0] == 'H';
  }

  /** The literals "7777" and "LB-7777" written in the launcher agree with the balancer port. */
  lemma BalancerLiteralsAgree()
    ensures Decimal.ParseNat(BalancerPortArg) == Some(BalancerPort)
    ensures BalancerPortArg == Decimal.NatToString(BalancerPort)
    ensures BalancerTag == "LB-" + BalancerPortArg
  {
    assert Decimal.NatToString(7) == "7";
    assert Decimal.NatToString(77) == "77";
    assert Decimal.NatToString(777) == "777";
    assert Decimal.NatToString(7777) == "7777";
    Decimal.ParseNatToString(BalancerPort);
  }

  /** Kotlin's `Double.toInt()`: rounds toward zero and saturates at the `Int` range. */
  function ToInt(x: real): (r: int)
    ensures MinInt <= r <= MaxInt
    ensures x >= MaxInt as real ==> r == MaxInt
    ensures x <= MinInt as real ==> r == MinInt
    ensures MinInt as real < x < MaxInt as real && x >= 0.0 ==> r as real <= x < r as real + 1.0
    ensures MinInt as real < x < MaxInt as real && x < 0.0 ==> r as real - 1.0 < x <= r as real
  {
    if x >= MaxInt as real then MaxInt
    else if x <= MinInt as real then MinInt
    else if x >= 0.0 then x.Floor
    else -((-x).Floor)
  }

  lemma ToIntMonotone(x: real, y: real)
    requires x <= y
    ensures ToInt(x) <= ToInt(y)
  {
  }

  datatype Windows = Windows(conn: int, win: int)

  /** `(base * multiplier).toInt()` for the connection and stream receive windows. */
  function WindowsFor(multiplier: real): Windows {
    Windows(ToInt(BaseConn as real * multiplier), ToInt(BaseWin as real * multiplier))
  }

  /** Window sizing is exact for the multipliers the UI offers, and the default multiplier keeps the base sizes. */
  lemma WindowsExact(m: real)
    requires m in {0.5, 1.0, 2.0, 4.0}
    ensures WindowsFor(m).conn as real == BaseConn as real * m
    ensures WindowsFor(m).win as real == BaseWin as real * m
  {
    if m == 0.5 {
      assert WindowsFor(m) == Windows(65536, 163840);
    } else if m == 1.0 {
      assert WindowsFor(m) == Windows(131072, 327680);
    } else if m == 2.0 {
      assert WindowsFor(m) == Windows(262144, 655360);
    } else {
      assert WindowsFor(m) == Windows(524288, 1310720);
    }
  }

  /** A larger multiplier never yields a smaller window. */
  lemma WindowsMonotone(m: real, n: real)
    requires m <= n
    ensures WindowsFor(m).conn <= WindowsFor(n).conn
    ensures WindowsFor(m).win <= WindowsFor(n).win
  {
    assert BaseConn as real * m <= BaseConn as real * n by {
      assert BaseConn as real * (n - m) >= 0.0;
    }
    assert BaseWin as real * m <= BaseWin as real * n by {
      assert BaseWin as real * (n - m) >= 0.0;
    }
    ToIntMonotone(BaseConn as real * m, BaseConn as real * n);
    ToIntMonotone(BaseWin as real * m, BaseWin as real * n);
  }

  /** The per-tunnel configuration object, fields in insertion order. */
  datatype TunnelConfig = TunnelConfig(
    server: string, obfs: string, auth: string, listen: string,
    insecure: bool, recvWindowConn: int, recvWindow: int)

  function TunnelConfigFor(port: nat, w: Windows): (c: TunnelConfig)
    ensures ParseEndpoint(c.listen) == Some(port)
  {
    ParseEndpointOfEndpoint(port);
    TunnelConfig(HardIp + ":" + HardRange, HardObfs, HardPass, Endpoint(port), true, w.conn, w.win)
  }

  function Quoted(s: string): string {
    "\"" + s + "\""
  }

  /**
   * `JSONObject.toString()` of a tunnel configuration: keys in insertion
   * order, the socks5 object nested (the values in use need no escaping).
   */
  function ConfigJson(c: TunnelConfig): string {
    JsonHead(c) + ("\"listen\":\"" + (c.listen + ("\"" + JsonTail(c))))
  }

  /** Everything up to the nested socks5 object's opening brace. */
  function JsonHead(c: TunnelConfig): string {
    "{" + Quoted("server") + ":" + Quoted(c.server)
    + "," + Quoted("obfs") + ":" + Quoted(c.obfs)
    + "," + Quoted("auth") + ":" + Quoted(c.auth)
    + "," + Quoted("socks5") + ":{"
  }

  /** The socks5 object's closing brace and the remaining fields. */
  function JsonTail(c: TunnelConfig): string {
    "}"
    + "," + Quoted("insecure") + ":" + (if c.insecure then "true" else "false")
    + "," + Quoted("recvwindowconn") + ":" + Decimal.IntToString(c.recvWindowConn)
    + "," + Quoted("recvwindow") + ":" + Decimal.IntToString(c.recvWindow)
    + "}"
  }

  /** Where the listen address starts in the JSON text: after the server, obfs and auth members and `"socks5":{"listen":"`. */
  function ListenOffset(c: TunnelConfig): nat {
    53 + |c.server| + |c.obfs| + |c.auth|
  }

  /**
   * The JSON text carries the listen address verbatim, as the string value
   * of the `listen` key, at a position fixed by the three fields before it.
   */
  lemma ConfigJsonCarriesListen(c: TunnelConfig)
    ensures var j := ConfigJson(c);
      var off := ListenOffset(c);
      && |j| > off + |c.listen|
      && j[off - 10 .. off] == "\"listen\":\""
      && j[off .. off + |c.listen|] == c.listen
      && j[off + |c.listen|] == '"'
  {
    JsonHeadLength(c);
    Framed(JsonHead(c), "\"listen\":\"", c.listen, "\"", JsonTail(c));
  }

  lemma JsonHeadLength(c: TunnelConfig)
    ensures |JsonHead(c)| == ListenOffset(c) - 10
  {
  }

  /** In `h + (p + (x + (q + t)))`, the pieces `p`, `x` and `q` sit right after `h`, in order. */
  lemma Framed(h: string, p: string, x: string, q: string, t: string)
    ensures var j := h + (p + (x + (q + t)));
      && j[|h| .. |h| + |p|] == p
      && j[|h| + |p| .. |h| + |p| + |x|] == x
      && j[|h| + |p| + |x| .. |h| + |p| + |x| + |q|] == q
  {
  }

  /** Command line of the tunnel client for `port`. */
  function TunnelCommand(libUz: string, port: nat, w: Windows): (cmd: seq<string>)
    ensures |cmd| == 5 && cmd[0] == libUz
    ensures cmd[1] == "-s" && cmd[3] == "--config"
    ensures cmd[2] == TunnelConfigFor(port, w).obfs
    ensures cmd[4] == ConfigJson(TunnelConfigFor(port, w))
  {
    [libUz, "-s", HardObfs, "--config", ConfigJson(TunnelConfigFor(port, w))]
  }

  /**
   * The JSON a tunnel receives names its own endpoint as the listen
   * address, at the same position for every port, and that address reads
   * back as the port.
   */
  lemma TunnelPayloadListens(libUz: string, port: nat, w: Windows)
    ensures var j := TunnelCommand(libUz, port, w)[4];
      var e := Endpoint(port);
      && |j| > PayloadListenOffset + |e|
      && j[PayloadListenOffset - 10 .. PayloadListenOffset] == "\"listen\":\""
      && j[PayloadListenOffset .. PayloadListenOffset + |e|] == e
      && j[PayloadListenOffset + |e|] == '"'
      && ParseEndpoint(j[PayloadListenOffset .. PayloadListenOffset + |e|]) == Some(port)
  {
    var c := TunnelConfigFor(port, w);
    ConfigJsonCarriesListen(c);
    assert ListenOffset(c) == PayloadListenOffset;
    ParseEndpointOfEndpoint(port);
  }

  /** The same for a launched tunnel, in terms of its configuration record. */
  lemma TunnelSpecPayload(s: Spec)
    requires s.TunnelSpec?
    ensures var json := CommandOf(s)[4];
      var listen := TunnelConfigFor(s.port, s.windows).listen;
      && |json| > PayloadListenOffset + |listen|
      && json[PayloadListenOffset - 10 .. PayloadListenOffset] == "\"listen\":\""
      && json[PayloadListenOffset .. PayloadListenOffset + |listen|] == listen
      && json[PayloadListenOffset + |listen|] == '"'
  {
    TunnelPayloadListens(s.libUz, s.port, s.windows);
  }

  /** `ListenOffset` of every tunnel configuration the engine builds (the credentials are fixed). */
  const PayloadListenOffset: nat := 95

  /** Command line of the balancer: listen on 7777 and fan out over `targets`. */
  function BalancerCommand(libLoad: string, targets: seq<string>): seq<string> {
    [libLoad, "-lport", BalancerPortArg, "-tunnel"] + targets
  }

  /** What a process is launched as: a tunnel client for one port, or the balancer over its targets. */
  datatype Spec =
    | TunnelSpec(libUz: string, port: nat, windows: Windows)
    | BalancerSpec(libLoad: string, targets: seq<string>)

  function CommandOf(s: Spec): seq<string> {
    match s
    case TunnelSpec(libUz, port, w) => TunnelCommand(libUz, port, w)
    case BalancerSpec(libLoad, targets) => BalancerCommand(libLoad, targets)
  }

  /** The tag that prefixes the process's log lines. */
  function TagOf(s: Spec): string {
    match s
    case TunnelSpec(_, port, _) => TunnelTag(port)
    case BalancerSpec(_, _) => BalancerTag
  }

  /**
   * Reading the balancer's command line back yields its listen port and,
   * in order, exactly the tunnel ports its targets were built from.
   */
  lemma BalancerCommandReadsBack(libLoad: string, ports: seq<nat>)
    ensures var cmd := BalancerCommand(libLoad, Targets(ports));
      && |cmd| == 4 + |ports|
      && cmd[0] == libLoad && cmd[1] == "-lport" && cmd[3] == "-tunnel"
      && Decimal.ParseNat(cmd[2]) == Some(BalancerPort)
      && forall i :: 0 <= i < |ports| ==> ParseEndpoint(cmd[4 + i]) == Some(ports[i])
  {
    BalancerLiteralsAgree();
    var cmd := BalancerCommand(libLoad, Targets(ports));
    forall i | 0 <= i < |ports|
      ensures ParseEndpoint(cmd[4 + i]) == Some(ports[i])
    {
      assert cmd[4 + i] == Targets(ports)[i];
    }
  }
}
