# MiniZivpn: the engine and VPN state machines in Dafny

MiniZivpn is an Android VPN client. Its Flutter UI calls into a Kotlin activity, `MainActivity`, over a method channel.

**The activity.**
- `startCore` runs `startEngine`. It tears down whatever was running. It stores the UDP mode in the shared preferences. It spawns four Hysteria tunnel clients (`libuz.so`), one per fixed local SOCKS5 port 20080..20083. It then spawns a load balancer (`libload.so`) that listens on port 7777 and fans out over those four endpoints.
- `stopCore` runs `stopEngine`. It force-destroys every tracked process, forgets them all and sweeps the executables by name with `pkill`.
- Both send the VPN service a DISCONNECT intent.

**The service.** `ZivpnService` answers CONNECT and DISCONNECT intents:
- `connect` establishes the TUN interface, writes a YAML configuration that points the native socks5 bridge at 127.0.0.1:7777, starts the bridge and records `vpn_running`.
- `disconnect` stops the bridge, closes the interface and clears the flag.

**How this model represents it.**
- The activity and the service are functional state machines over immutable records.
- OS processes are opaque handles drawn from a counter, so a spawn always yields a handle never issued before.
- Calls into the OS are not performed. Each transition returns them, in order, as a list of effects: intents, destroy requests, execs, spawns and log watchers on the activity side; config writes, native start and stop, close and `stopSelf` on the service side.
- Every place where the source can throw is an explicit parameter:
  - `Engine.Fault` says which step of the launch throws: a tunnel spawn at a given loop index, the warm-up sleep, or the balancer spawn.
  - `Vpn.ConnectEnv` says whether `establish` throws, yields no interface or yields one; whether the file write succeeds; and whether the native start returns.
  - `Vpn.Service.nativeLoaded` says whether the native library loaded.
- An exception nobody catches is `Completion.Thrown`.

**Modules.**
- `Wrappers`: `Option` and `Completion`.
- `Decimal`: decimal rendering of numbers, and its inverse.
- `Prefs`: the shared preference store as a map.
- `Launch`: constants, endpoints, tags, window sizing and the two command vectors.
- `Engine`: `stopEngine` and `startEngine`.
- `Dispatch`: the method-channel handler.
- `Vpn`: the service.
- `System`: the activity's intents delivered to the service.

**Behaviour of the code worth noting:**
- `startEngine` ignores the address, port range, password and obfuscation key the caller passes. It always uses the hardcoded `103.175.216.5`, `6000-19999`, `maslexx68` and ``hu``hqb`c`` (MainActivity.kt:135-139). `Dispatch.StartCoreIgnoresCredentials` states this.
- The clean-up sweep is the single shell command `sh -c "pkill -9 libuz; pkill -9 libload; pkill -9 libuz.so; pkill -9 libload.so"`. `Engine.SweepCommand` builds it from the name list `Engine.SweepNames`.
- `disconnect` clears the interface only when the native library loaded. Otherwise its first call, `TProxyStopService`, throws `UnsatisfiedLinkError`, and nothing after it runs: the load failure is caught once at class initialisation, and the error resurfaces on every native call.
- `connect` assigns `vpnInterface` first thing inside the `try`, as soon as `establish` returns. A connect that fails later therefore leaves the interface assigned and calls `stopSelf`, and every later CONNECT is a no-op until a DISCONNECT clears the interface. A null `establish` returns without `stopSelf`. `Vpn.Connect` keeps this behaviour.
- `startCore` begins with a teardown that sends DISCONNECT. So any `startCore` whose arguments cast takes the VPN down once its intents reach the service, with the native library loaded, even when the start succeeds (`System.StartCoreDisconnectsVpn`).

## Model

In the source column, `MainActivity.kt` and `ZivpnService.kt` both stand for files in `android/app/src/main/kotlin/com/minizivpn/app/`.

| member | source | states |
|---|---|---|
| Decimal.NatToString | android/app/src/main/kotlin/com/minizivpn/app/MainActivity.kt:162 | the decimal text of a port is non-empty and all digits; it has no leading zero unless the number is 0; it is one digit exactly for numbers below 10 |
| Decimal.ParseNatToString | android/app/src/main/kotlin/com/minizivpn/app/MainActivity.kt:162 | reading a rendered number back yields the number, so `"$port"` loses nothing |
| Decimal.NatToStringInjective | android/app/src/main/kotlin/com/minizivpn/app/MainActivity.kt:178 | two numbers render to the same text exactly when they are equal |
| Launch.ParseEndpointOfEndpoint | android/app/src/main/kotlin/com/minizivpn/app/MainActivity.kt:179 | the endpoint "127.0.0.1:<port>" reads back as its port |
| Launch.EndpointInjective | android/app/src/main/kotlin/com/minizivpn/app/MainActivity.kt:179 | distinct ports give distinct endpoints, and equal endpoints come from equal ports |
| Launch.Targets | android/app/src/main/kotlin/com/minizivpn/app/MainActivity.kt:153-179 | the recorded targets hold one endpoint per port, in port order, each reading back as its port |
| Launch.TagsDistinct | android/app/src/main/kotlin/com/minizivpn/app/MainActivity.kt:178 | tunnel log tags "HY-<port>" are equal exactly when the ports are; none equals the balancer's "LB-7777" |
| Launch.BalancerLiteralsAgree | android/app/src/main/kotlin/com/minizivpn/app/MainActivity.kt:186-194 | the literal "7777" passed as `-lport` is the decimal text of the balancer port and parses back to it; the tag "LB-7777" is "LB-" followed by that literal |
| Launch.ToInt | android/app/src/main/kotlin/com/minizivpn/app/MainActivity.kt:149-150 | `Double.toInt()` stays inside the Int range, saturates at its ends, and in between rounds toward zero (within one below a positive value, within one above a negative one) |
| Launch.ToIntMonotone | android/app/src/main/kotlin/com/minizivpn/app/MainActivity.kt:149-150 | the conversion never decreases |
| Launch.WindowsExact | android/app/src/main/kotlin/com/minizivpn/app/MainActivity.kt:147-150 | for multipliers 0.5, 1, 2 and 4 the receive windows are exactly base times multiplier; the default 1.0 keeps 131072 and 327680 |
| Launch.WindowsMonotone | android/app/src/main/kotlin/com/minizivpn/app/MainActivity.kt:147-150 | a larger multiplier never yields a smaller window |
| Launch.TunnelConfigFor | android/app/src/main/kotlin/com/minizivpn/app/MainActivity.kt:156-167 | the socks5 `listen` address of a tunnel's configuration reads back as that tunnel's port |
| Launch.TunnelCommand | android/app/src/main/kotlin/com/minizivpn/app/MainActivity.kt:170 | the tunnel command has five words: the executable, "-s", the configuration's obfuscation key, "--config", and as the fifth the JSON text of that tunnel's configuration |
| Launch.ConfigJsonCarriesListen | android/app/src/main/kotlin/com/minizivpn/app/MainActivity.kt:156-163 | the JSON text of a configuration holds `"listen":"` followed by exactly the configuration's listen address and a closing quote, at an offset fixed by the lengths of server, obfuscation key and password |
| Launch.TunnelPayloadListens | android/app/src/main/kotlin/com/minizivpn/app/MainActivity.kt:156-170 | the JSON a tunnel is given holds, at a fixed offset, its own endpoint "127.0.0.1:<port>" as the socks5 listen address, and that text reads back as the port |
| Launch.TunnelSpecPayload | android/app/src/main/kotlin/com/minizivpn/app/MainActivity.kt:156-170 | for every launched tunnel, the JSON in its command holds the listen address of its configuration at that offset; with Engine.ListenAddressesAreTargets this is the balancer target at the tunnel's position |
| Launch.BalancerCommandReadsBack | android/app/src/main/kotlin/com/minizivpn/app/MainActivity.kt:186-187 | the balancer command is the executable, "-lport", a port that reads back as 7777 and "-tunnel", then exactly one target per port; each target reads back, in order, as the port it was built from |
| Engine.SweepCoversExecutables | android/app/src/main/kotlin/com/minizivpn/app/MainActivity.kt:243 | the kill-by-name sweep covers both executables the engine launches; every swept name is a prefix of one of them |
| Engine.DestroyAll | android/app/src/main/kotlin/com/minizivpn/app/MainActivity.kt:230-238 | one destroy request per tracked process, in list order |
| Engine.StopEngine | android/app/src/main/kotlin/com/minizivpn/app/MainActivity.kt:225-248 | whatever it held, the tracked list ends empty and no handle is reissued. First comes the DISCONNECT intent, then a destroy request for each tracked handle in order, and last the sweep, which always runs. It spawns nothing |
| Engine.StopDestroysEveryHandle | android/app/src/main/kotlin/com/minizivpn/app/MainActivity.kt:230-239 | every process that was tracked receives a destroy request |
| Engine.StopIdempotent | android/app/src/main/kotlin/com/minizivpn/app/MainActivity.kt:225-248 | stopping a stopped engine leaves the same state; it only re-sends the intent and re-runs the sweep |
| Engine.SpawnTunnels | android/app/src/main/kotlin/com/minizivpn/app/MainActivity.kt:152-180 | the loop stops exactly at the first spawn that throws. Each tunnel spawned before it gets the next fresh handle and its own port, in order, and records exactly its own endpoint as a target |
| Engine.LaunchFleet | android/app/src/main/kotlin/com/minizivpn/app/MainActivity.kt:141-195 | the launch fails exactly when one of the four tunnel spawns, the warm-up or the balancer spawn throws. Handles are consecutive from the first fresh one. A failing tunnel spawn at index i leaves exactly i processes; a failing warm-up or balancer spawn leaves four processes; when nothing throws, five processes are spawned |
| Engine.TryLaunch | android/app/src/main/kotlin/com/minizivpn/app/MainActivity.kt:141-203 | a failed launch answers START_ERR and ends with nothing tracked; a successful one answers "Turbo Engine Running (4 Cores + LB:7777)" with five fresh handles |
| Engine.StartEngine | android/app/src/main/kotlin/com/minizivpn/app/MainActivity.kt:115-204 | starts with the full teardown of the old fleet and stores the UDP mode whatever happens after. The new handles are all fresh. An aborting fault answers START_ERR with an empty fleet; otherwise the answer is the running message with five processes |
| Engine.SpawnEffectsContent | android/app/src/main/kotlin/com/minizivpn/app/MainActivity.kt:176-178 | the spawn-and-watch effects are exactly a spawn and a watch under the process's own tag for each spawned process, and nothing else |
| Engine.LaunchFleetShape | android/app/src/main/kotlin/com/minizivpn/app/MainActivity.kt:152-193 | a launch that does not throw holds the tunnels for 20080, 20081, 20082 and 20083 in that order, then the balancer over their endpoints, last |
| Engine.StartedFleetShape | android/app/src/main/kotlin/com/minizivpn/app/MainActivity.kt:152-193 | after a successful start the tracked list has exactly five entries: the four tunnels in port order with consecutive fresh handles, then the balancer over the four endpoints |
| Engine.ListenAddressesAreTargets | android/app/src/main/kotlin/com/minizivpn/app/MainActivity.kt:162-194 | in a running fleet each tunnel's socks5 listen address is the balancer target at its position; the balancer has one target per tunnel; tags are "HY-<port>" and "LB-7777" |
| Engine.NoHandleSurvivesRestart | android/app/src/main/kotlin/com/minizivpn/app/MainActivity.kt:124 | a start keeps handles unique and issued, and no handle of the replaced fleet is in the new one |
| Engine.FailedStartLeavesNoOrphan | android/app/src/main/kotlin/com/minizivpn/app/MainActivity.kt:198-202 | a start that throws never answers success and tracks nothing; every process it spawned later receives a destroy request |
| Engine.StartedProcessesAreTracked | android/app/src/main/kotlin/com/minizivpn/app/MainActivity.kt:176-194 | after a successful start every spawned process is tracked, and every tracked process was spawned and watched under its tag |
| Engine.RestartIsStopThenStart | android/app/src/main/kotlin/com/minizivpn/app/MainActivity.kt:124 | starting over a live fleet gives the same fleet, preferences and answer as stopping it first and then starting |
| Engine.RestartEffects | android/app/src/main/kotlin/com/minizivpn/app/MainActivity.kt:124 | compared with stopping first, a direct start's effects lack only the second stop's intent and sweep |
| Prefs.GetString | android/app/src/main/kotlin/com/minizivpn/app/ZivpnService.kt:91 | a missing key gives the default and a string gives the string; a non-string under the key gives nothing, because the read throws |
| Prefs.PutString | android/app/src/main/kotlin/com/minizivpn/app/MainActivity.kt:128-131 | the key holds the new string and every other key is unchanged |
| Prefs.PutFlag | android/app/src/main/kotlin/com/minizivpn/app/ZivpnService.kt:116 | the key holds the new flag and every other key is unchanged |
| Dispatch.StartArgsOf | android/app/src/main/kotlin/com/minizivpn/app/MainActivity.kt:52-57 | the arguments are read exactly when they are a map or absent and each present one has the expected type (a number for the multiplier, text otherwise); each present argument is taken as given; each missing or null one defaults: "" for ip and pass, "6000-19999", ``"hu``hqb`c"``, 1.0, "tcp" |
| Dispatch.OnMethodCall | android/app/src/main/kotlin/com/minizivpn/app/MainActivity.kt:50-99 | startCore with a mistyped argument, or with arguments that are not a map: the cast throws before `startEngine`, the reply is the error code "error" and nothing changes, no teardown and no preference write. Otherwise startCore is exactly `startEngine` with the call's multiplier and UDP mode: its fleet, preferences, reply and effects. So it succeeds exactly when nothing aborts, otherwise START_ERR with an empty fleet, and the UDP mode stored. stopCore: exactly the effects of `stopEngine` followed by one more DISCONNECT, an empty fleet, preferences untouched, "Stopped". startVpn: asks for consent or sends CONNECT. Any other name: not implemented, nothing changes |
| Dispatch.IntegerMultiplierIsAnError | android/app/src/main/kotlin/com/minizivpn/app/MainActivity.kt:56 | a startCore call whose multiplier is not a Double (an integer, say) is answered with "error" and leaves the activity as it was |
| Dispatch.UnkeyedArgumentsAreAnError | android/app/src/main/kotlin/com/minizivpn/app/MainActivity.kt:52 | a startCore call whose arguments are neither absent nor a map is answered with "error" and leaves the activity as it was |
| Dispatch.StartCoreDefaults | android/app/src/main/kotlin/com/minizivpn/app/MainActivity.kt:52-59 | a startCore call without arguments, or with an empty map of them, starts with the defaults of the `?:` fallbacks at MainActivity.kt:52-57 |
| Dispatch.StartCoreIgnoresCredentials | android/app/src/main/kotlin/com/minizivpn/app/MainActivity.kt:135-139 | two startCore calls that agree on multiplier and UDP mode behave identically, whatever address, range, password and key they pass |
| Vpn.SplitJoin | android/app/src/main/kotlin/com/minizivpn/app/ZivpnService.kt:93-108 | joining lines that contain no line break and cutting the text at line breaks gives the lines back |
| Vpn.ConfigTextLines | android/app/src/main/kotlin/com/minizivpn/app/ZivpnService.kt:93-108 | the written configuration, read back line by line, is the template with the stored UDP mode on the socks5 `udp` line |
| Vpn.Connect | android/app/src/main/kotlin/com/minizivpn/app/ZivpnService.kt:54-122 | a no-op when an interface exists. Otherwise the interface becomes exactly what `establish` yields. The native start gets that interface's descriptor. Every configuration written goes to `tunnel_config.yaml` in the cache directory with the stored UDP mode (or "tcp"), and one is written whenever the interface and the write succeed. When every step succeeds `vpn_running` becomes true and `stopSelf` is not called; when any fails the preferences are unchanged. A null `establish` never calls `stopSelf`; every other failure, caught, ends with it. The configuration is always written before the native start |
| Vpn.Disconnect | android/app/src/main/kotlin/com/minizivpn/app/ZivpnService.kt:124-134 | throws exactly when the native library is missing. Otherwise: no interface, `vpn_running` false, the native stop first, the old interface closed, `stopSelf` last |
| Vpn.OnStartCommand | android/app/src/main/kotlin/com/minizivpn/app/ZivpnService.kt:40-52 | CONNECT runs connect and returns START_STICKY; DISCONNECT throws exactly when the native library is missing, otherwise returns disconnect's outcome with START_NOT_STICKY and no interface; any other or no action changes nothing and returns START_NOT_STICKY |
| Vpn.ConnectStartsAtMostOnce | android/app/src/main/kotlin/com/minizivpn/app/ZivpnService.kt:55-116 | one connect starts the native bridge at most once, and only when it leaves an interface assigned |
| Vpn.ConnectTwiceStartsOnce | android/app/src/main/kotlin/com/minizivpn/app/ZivpnService.kt:55 | repeated CONNECT never starts a second native bridge; the second is a no-op once an interface exists |
| Vpn.DisconnectIdempotent | android/app/src/main/kotlin/com/minizivpn/app/ZivpnService.kt:124-134 | with the native library loaded, disconnecting twice leaves the state disconnecting once does |
| System.Deliver | android/app/src/main/kotlin/com/minizivpn/app/ZivpnService.kt:40-52 | delivering the activity's intents in order never changes whether the native library loaded |
| System.DeliverNoIntents | android/app/src/main/kotlin/com/minizivpn/app/ZivpnService.kt:40-52 | effects without intents leave the service and preferences untouched |
| System.LastDisconnectWins | android/app/src/main/kotlin/com/minizivpn/app/ZivpnService.kt:124-131 | once the native library loaded, a sequence of intents ending in DISCONNECT leaves no interface and `vpn_running` false, whatever came before |
| System.StopEndsWithDisconnect | android/app/src/main/kotlin/com/minizivpn/app/MainActivity.kt:225-248 | the last intent a teardown sends is DISCONNECT |
| System.StartEndsWithDisconnect | android/app/src/main/kotlin/com/minizivpn/app/MainActivity.kt:124-202 | whether it succeeds or rolls back, the last intent a start sends is DISCONNECT |
| System.StopCoreDisconnectsVpn | android/app/src/main/kotlin/com/minizivpn/app/MainActivity.kt:60-63 | after stopCore's intents reach the service, the VPN is down and `vpn_running` is false |
| System.StartCoreDisconnectsVpn | android/app/src/main/kotlin/com/minizivpn/app/MainActivity.kt:50-124 | after startCore's intents reach the service, the VPN is down, whatever the start's outcome; a startCore whose arguments do not cast sends nothing and leaves the service as it was |
| System.TunnelConfigTargetsBalancer | android/app/src/main/kotlin/com/minizivpn/app/ZivpnService.kt:98-100 | the written configuration's socks5 section names 127.0.0.1 and the very port the balancer is given as `-lport`, which reads as 7777 |
| System.UdpModeReachesService | android/app/src/main/kotlin/com/minizivpn/app/MainActivity.kt:127-131 | the UDP mode given to startCore, or its default, is what the service reads back, whatever the start's outcome; with nothing stored both sides default to "tcp"; a startCore whose arguments do not cast leaves the preferences untouched |
| System.DeliverKeepsUdpMode | android/app/src/main/kotlin/com/minizivpn/app/ZivpnService.kt:40-52 | delivering intents to the service never changes the UDP mode it reads |
| System.StartCoreModeReachesConfig | android/app/src/main/kotlin/com/minizivpn/app/ZivpnService.kt:90-111 | after startCore's intents reach the service, a CONNECT whose interface and write succeed writes the configuration for exactly the UDP mode startCore was given (or "tcp"), and no other |

## Left out

- Process output, logging, the log and exit-watcher threads and the UI-thread posting are left out. A spawn is modelled only as a `Watch` effect carrying the process's tag.
- The sleeps are left out. The 1.5 s pause before launch cannot fail. The 1 s warm-up is modelled only as the place where the `WarmUp` fault throws.
- Launches are not executed. `ProcessBuilder`, `destroyForcibly`/`destroy`, the SDK-version branch between them, `Runtime.exec` and `pkill` are returned as effects. Failures of `destroyForcibly`/`destroy` and of the `Runtime.exec` sweep are swallowed by the source, so they change nothing. A throwing `ProcessBuilder.start()` is not swallowed: it is one of the `Engine.Fault` spawn faults, which the catch block answers with a rollback.
- The working directory and `LD_LIBRARY_PATH` given to both launches are left out; they do not affect the tracked state.
- VpnService plumbing is left out: the builder's session, MTU, routes, DNS servers, address, excluded app and pending intent. `establish` is reduced to its three outcomes.
- The consent flow after the system dialog (`onActivityResult`) is left out. `startVpn` is modelled up to asking for consent.
- `onCreate` and `onDestroy` are left out; each only calls `stopEngine`.
- The native calls are left out; they are foreign code. `TProxyStartService` is an effect that either returns or throws. `TProxyStopService` throws only when the library failed to load. `TProxyGetStats` is never called.
- Shared preferences are a map written at once. Asynchronous `apply()` and persistence are left out.
- The activity addresses intents to `TunService`, and that class is not part of this model. `System.Deliver` assumes its actions are the service's CONNECT and DISCONNECT.
- `startService` itself is not modelled as failing.
- The exception message passed to `result.error` is left out; only the START_ERR code is kept.
- A mistyped method-channel argument, or arguments that are neither null nor a map, make `call.argument` throw `ClassCastException`. The reply "error" is what Flutter's `MethodChannel` sends for an exception its handler does not catch; that class is not part of this model, and its message text is left out. Arguments are modelled as a map, no arguments, or a value of another kind; each value in a map as text, a number, null or any other value. A `JSONObject` as arguments is not modelled.
- `close()` on the interface is not modelled as throwing.
- Launch.ToInt: works on exact reals, not IEEE doubles. Rounding of the product `base * multiplier` and a NaN multiplier, which Kotlin converts to 0, are not modelled.
- Launch.ConfigJson: writes the keys in insertion order, as Android's `JSONObject` does. It does not escape, because none of the values it receives needs escaping.
- Vpn.Connect: the written file is recorded as its path and UDP mode. The text is `Vpn.ConfigText` of that mode, and `Vpn.ConfigTextLines` relates the two.
- Vpn.ConfigTextLines: assumes the stored UDP mode holds no line break, neither `\n` nor `\r`. With one, the file gains extra lines and `trimIndent` behaves differently, which is not modelled.
- Vpn.Disconnect: clears the interface only when the native library loaded, because the source's first call throws otherwise. The same holds for System.LastDisconnectWins, System.StopCoreDisconnectsVpn and System.StartCoreDisconnectsVpn, which require the library loaded.
- System.Deliver: gives every connect in one delivery the same outcomes for `establish`, the write and the native start.
