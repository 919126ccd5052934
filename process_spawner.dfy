/**
 * `ProcessSpawnerRequestHandler`: the spawner-side handler that starts a
 * game-server process for each spawn request. It leases a port, builds the
 * executable path and the argument string, answers the request once the
 * process has (or has not) started, and when the process is gone releases
 * the port, forgets the process and reports it killed.
 *
 * The operating system is abstract: a process start is an event carrying
 * the process id, a failed start and a process exit are events, and the
 * client's connection state is a parameter of each event. The argument
 * names of `SpeedDateArgNames` and the option keys are not part of this
 * model and are parameters or constants chosen here.
 */
module Launcher {
  import opened Common

  /** `PortsStartFrom`. */
  const PortsStartFrom: int := 10000

  /** Keys of the request properties; `OptionKeys` is not part of this model, the texts are chosen here. */
  const ExecutablePathKey: string := "ExecutablePath"
  const SceneNameKey: string := "SceneName"

  // ---------------------------------------------------------------------
  // The port pool.
  // ---------------------------------------------------------------------

  /** `_lastPortTaken` (-1 until the first mint) and the `_freePorts` queue. */
  datatype PortPool = PortPool(lastPortTaken: int, freePorts: seq<int>)

  const InitialPool: PortPool := PortPool(-1, [])

  /** `GetAvailablePort`: the oldest released port, else the next port of the counter. */
  function TakePort(p: PortPool): (PortPool, int) {
    if |p.freePorts| > 0 then (p.(freePorts := p.freePorts[1..]), p.freePorts[0])
    else
      var last := if p.lastPortTaken < 0 then PortsStartFrom else p.lastPortTaken;
      (p.(lastPortTaken := last + 1), last)
  }

  /** `ReleasePort`: back to the tail of the queue. */
  function FreePort(p: PortPool, port: int): PortPool {
    p.(freePorts := p.freePorts + [port])
  }

  /**
   * The pool is consistent with the set of ports currently leased: every
   * free or leased port was minted, no port is both, and no port is free
   * twice.
   */
  ghost predicate PoolInvariant(p: PortPool, leased: set<int>) {
    && (p.lastPortTaken < 0 ==> p.freePorts == [] && leased == {})
    && (p.lastPortTaken >= 0 ==> p.lastPortTaken >= PortsStartFrom)
    && (forall i :: 0 <= i < |p.freePorts| ==> PortsStartFrom <= p.freePorts[i] < p.lastPortTaken && p.freePorts[i] !in leased)
    && (forall i, j :: 0 <= i < j < |p.freePorts| ==> p.freePorts[i] != p.freePorts[j])
    && (forall q :: q in leased ==> PortsStartFrom <= q < p.lastPortTaken)
  }

  /** A taken port is never one already leased, and the invariant holds with it leased. */
  lemma TakeIsFresh(p: PortPool, leased: set<int>)
    requires PoolInvariant(p, leased)
    ensures var (p', port) := TakePort(p);
      && port !in leased
      && PortsStartFrom <= port
      && PoolInvariant(p', leased + {port})
  {
    var (p', port) := TakePort(p);
    if |p.freePorts| > 0 {
      forall i | 0 <= i < |p'.freePorts| ensures p'.freePorts[i] != port {
        assert p'.freePorts[i] == p.freePorts[i + 1];
      }
    }
  }

  /** Releasing a leased port keeps the invariant with the port no longer leased. */
  lemma ReleaseKeepsInvariant(p: PortPool, leased: set<int>, port: int)
    requires PoolInvariant(p, leased) && port in leased
    ensures PoolInvariant(FreePort(p, port), leased - {port})
  {
  }

  /** Released ports are reused oldest first, before any new port is minted. */
  lemma ReuseBeforeMint(p: PortPool, port: int)
    ensures var (p', taken) := TakePort(FreePort(p, port));
      taken == (if p.freePorts == [] then port else p.freePorts[0])
      && p'.lastPortTaken == p.lastPortTaken
  {
  }

  /** Fresh ports start at `PortsStartFrom` and go up by one per mint. */
  lemma MintSequence()
    ensures var (p1, a) := TakePort(InitialPool);
      var (p2, b) := TakePort(p1);
      var (p3, c) := TakePort(FreePort(p2, a));
      a == PortsStartFrom && b == PortsStartFrom + 1 && c == PortsStartFrom && p3.lastPortTaken == PortsStartFrom + 2
  {
  }

  // ---------------------------------------------------------------------
  // Launch arguments and executable path.
  // ---------------------------------------------------------------------

  /** `SpawnerConfig`. */
  datatype SpawnerConfig = SpawnerConfig(executablePath: string, machineIp: string, spawnInBatchmode: bool, addWebGlFlag: bool)

  /** The names of `SpeedDateArgNames` used on the command line. */
  datatype ArgNames = ArgNames(webGl: string, masterIp: string, masterPort: string, spawnId: string, assignedPort: string, machineIp: string, spawnCode: string)

  /** The spawner process's own environment: its command line and executable. */
  datatype Host = Host(argv0: string, argv0Exists: bool, mainModule: string, loadScene: string, dontSpawnInBatchmode: bool)

  /** `SpawnRequestPacket` as the spawner receives it. */
  datatype SpawnRequest = SpawnRequest(spawnId: int, spawnCode: string, customArgs: string, properties: map<string, string>, overrideExePath: string)

  /** The executable: the configured path (else this process's own), overridden by the request's property, overridden by `OverrideExePath`. */
  function ExecutablePath(config: SpawnerConfig, host: Host, request: SpawnRequest): string {
    var configured := if config.executablePath == "" then (if host.argv0Exists then host.argv0 else host.mainModule) else config.executablePath;
    var fromRequest := if ExecutablePathKey in request.properties then request.properties[ExecutablePathKey] else configured;
    if request.overrideExePath != "" then request.overrideExePath else fromRequest
  }

  /** The path precedence, highest first. */
  lemma PathPrecedence(config: SpawnerConfig, host: Host, request: SpawnRequest)
    ensures var path := ExecutablePath(config, host, request);
      && (request.overrideExePath != "" ==> path == request.overrideExePath)
      && (request.overrideExePath == "" && ExecutablePathKey in request.properties ==> path == request.properties[ExecutablePathKey])
      && (request.overrideExePath == "" && ExecutablePathKey !in request.properties && config.executablePath != "" ==> path == config.executablePath)
      && (request.overrideExePath == "" && ExecutablePathKey !in request.properties && config.executablePath == "" ==>
            path == if host.argv0Exists then host.argv0 else host.mainModule)
  {
  }

  /** The optional leading words: the batchmode flags, the WebGL flag and the scene argument, when enabled. */
  function OptionalWords(config: SpawnerConfig, names: ArgNames, host: Host, request: SpawnRequest): seq<string> {
    (if config.spawnInBatchmode && !host.dontSpawnInBatchmode then ["-batchmode", "-nographics"] else [])
    + (if config.addWebGlFlag then [names.webGl] else [])
    + (if SceneNameKey in request.properties then [host.loadScene, request.properties[SceneNameKey]] else [])
  }

  /** Each argument name with its value, the spawn code in double quotes. */
  function FixedWords(config: SpawnerConfig, names: ArgNames, masterAddress: string, masterPort: int, request: SpawnRequest, port: int): seq<string> {
    [names.masterIp, masterAddress,
     names.masterPort, IntToString(masterPort),
     names.spawnId, IntToString(request.spawnId),
     names.assignedPort, IntToString(port),
     names.machineIp, config.machineIp,
     names.spawnCode, "\"" + request.spawnCode + "\""]
  }

  /** The words of the argument string in their fixed order. */
  function ArgumentWords(config: SpawnerConfig, names: ArgNames, host: Host, masterAddress: string, masterPort: int, request: SpawnRequest, port: int): seq<string> {
    OptionalWords(config, names, host, request) + FixedWords(config, names, masterAddress, masterPort, request, port)
  }

  /**
   * The argument string of the spawned process: a leading space, every
   * word followed by one space (each of the source's segments is words
   * followed by a space), then the request's custom arguments.
   */
  function LaunchArguments(config: SpawnerConfig, names: ArgNames, host: Host, masterAddress: string, masterPort: int, request: SpawnRequest, port: int): string {
    " " + JoinTrailing(ArgumentWords(config, names, host, masterAddress, masterPort, request, port)) + request.customArgs
  }

  predicate IsWord(w: string) {
    w != [] && forall i :: 0 <= i < |w| ==> w[i] != ' '
  }

  /** Length of the word at the front of `s`. */
  function WordLength(s: string): (n: nat)
    requires s != [] && s[0] != ' '
    ensures 0 < n <= |s|
    ensures forall i :: 0 <= i < n ==> s[i] != ' '
    ensures n == |s| || s[n] == ' '
  {
    if |s| == 1 || s[1] == ' ' then 1 else 1 + WordLength(s[1..])
  }

  /** Splitting a command line on spaces, dropping empty pieces. */
  function Words(s: string): (ws: seq<string>)
    decreases |s|
  {
    if s == [] then []
    else if s[0] == ' ' then Words(s[1..])
    else
      var n := WordLength(s);
      [s[..n]] + Words(s[n..])
  }

  /** Words joined, each followed by one space. */
  function JoinTrailing(ws: seq<string>): string {
    if ws == [] then "" else ws[0] + " " + JoinTrailing(ws[1..])
  }

  lemma WordsCons(w: string, rest: string)
    requires IsWord(w)
    ensures Words(w + " " + rest) == [w] + Words(rest)
  {
    var s := w + " " + rest;
    var n := WordLength(s);
    assert s[|w|] == ' ';
    assert forall i :: 0 <= i < |w| ==> s[i] == w[i];
    assert n == |w|;
    assert s[..n] == w;
    assert s[n..] == " " + rest;
    assert (" " + rest)[1..] == rest;
  }

  /** Joining splits at the first word. */
  lemma JoinFront(ws: seq<string>, rest: string)
    requires ws != []
    ensures JoinTrailing(ws) + rest == ws[0] + " " + (JoinTrailing(ws[1..]) + rest)
  {
  }

  lemma {:induction false} WordsJoin(ws: seq<string>, rest: string)
    requires AllWords(ws)
    ensures Words(JoinTrailing(ws) + rest) == ws + Words(rest)
  {
    if ws == [] {
      assert JoinTrailing(ws) + rest == rest;
    } else {
      var w, tl := ws[0], ws[1..];
      assert IsWord(w) && AllWords(tl);
      var tail := JoinTrailing(tl) + rest;
      JoinFront(ws, rest);
      WordsCons(w, tail);
      WordsJoin(tl, rest);
      assert Words(JoinTrailing(ws) + rest) == [w] + (tl + Words(rest));
      assert ws == [w] + tl;
    }
  }

  predicate AllWords(ws: seq<string>) {
    forall i :: 0 <= i < |ws| ==> IsWord(ws[i])
  }

  /** The spawn code, wrapped in quotes, is a word when it has no spaces. */
  lemma QuotedIsWord(code: string)
    requires forall i :: 0 <= i < |code| ==> code[i] != ' '
    ensures IsWord("\"" + code + "\"")
  {
    var q := "\"" + code + "\"";
    forall i | 0 <= i < |q| ensures q[i] != ' ' {
      if 0 < i < |q| - 1 { assert q[i] == code[i - 1]; }
    }
  }

  lemma AllWordsAppend(a: seq<string>, b: seq<string>)
    requires AllWords(a) && AllWords(b)
    ensures AllWords(a + b)
  {
    forall i | 0 <= i < |a + b| ensures IsWord((a + b)[i]) {
      if i < |a| { assert (a + b)[i] == a[i]; } else { assert (a + b)[i] == b[i - |a|]; }
    }
  }

  lemma OptionalWordsAreWords(config: SpawnerConfig, names: ArgNames, host: Host, request: SpawnRequest)
    requires IsWord(names.webGl) && IsWord(host.loadScene)
    requires SceneNameKey in request.properties ==> IsWord(request.properties[SceneNameKey])
    ensures AllWords(OptionalWords(config, names, host, request))
  {
    assert IsWord("-batchmode") && IsWord("-nographics");
  }

  lemma FixedWordsAreWords(config: SpawnerConfig, names: ArgNames, masterAddress: string, masterPort: int, request: SpawnRequest, port: int)
    requires IsWord(names.masterIp) && IsWord(names.masterPort) && IsWord(names.spawnId)
    requires IsWord(names.assignedPort) && IsWord(names.machineIp) && IsWord(names.spawnCode)
    requires IsWord(masterAddress) && IsWord(config.machineIp)
    requires forall i :: 0 <= i < |request.spawnCode| ==> request.spawnCode[i] != ' '
    ensures AllWords(FixedWords(config, names, masterAddress, masterPort, request, port))
  {
    QuotedIsWord(request.spawnCode);
  }

  /** The names and values are words when the configured texts are. */
  lemma ArgumentWordsAreWords(config: SpawnerConfig, names: ArgNames, host: Host, masterAddress: string, masterPort: int, request: SpawnRequest, port: int)
    requires IsWord(names.webGl) && IsWord(names.masterIp) && IsWord(names.masterPort) && IsWord(names.spawnId)
    requires IsWord(names.assignedPort) && IsWord(names.machineIp) && IsWord(names.spawnCode)
    requires IsWord(masterAddress) && IsWord(config.machineIp) && IsWord(host.loadScene)
    requires SceneNameKey in request.properties ==> IsWord(request.properties[SceneNameKey])
    requires forall i :: 0 <= i < |request.spawnCode| ==> request.spawnCode[i] != ' '
    ensures AllWords(ArgumentWords(config, names, host, masterAddress, masterPort, request, port))
  {
    OptionalWordsAreWords(config, names, host, request);
    FixedWordsAreWords(config, names, masterAddress, masterPort, request, port);
    AllWordsAppend(OptionalWords(config, names, host, request), FixedWords(config, names, masterAddress, masterPort, request, port));
  }

  /**
   * The spawned process can read its arguments back: when every name and
   * value is a non-empty text without spaces, splitting the argument string
   * on spaces yields the words in the fixed order, then the words of the
   * custom arguments; the numbers parse back to the spawn id and port.
   */
  lemma ArgumentsReadBack(config: SpawnerConfig, names: ArgNames, host: Host, masterAddress: string, masterPort: int, request: SpawnRequest, port: int)
    requires IsWord(names.webGl) && IsWord(names.masterIp) && IsWord(names.masterPort) && IsWord(names.spawnId)
    requires IsWord(names.assignedPort) && IsWord(names.machineIp) && IsWord(names.spawnCode)
    requires IsWord(masterAddress) && IsWord(config.machineIp) && IsWord(host.loadScene)
    requires SceneNameKey in request.properties ==> IsWord(request.properties[SceneNameKey])
    requires forall i :: 0 <= i < |request.spawnCode| ==> request.spawnCode[i] != ' '
    ensures var ws := ArgumentWords(config, names, host, masterAddress, masterPort, request, port);
      && Words(LaunchArguments(config, names, host, masterAddress, masterPort, request, port)) == ws + Words(request.customArgs)
      && ParseInt(ws[|ws| - 7]) == Some(request.spawnId)
      && ParseInt(ws[|ws| - 5]) == Some(port)
  {
    var ws := ArgumentWords(config, names, host, masterAddress, masterPort, request, port);
    ArgumentWordsAreWords(config, names, host, masterAddress, masterPort, request, port);
    WordsJoin(ws, request.customArgs);
    var s := " " + (JoinTrailing(ws) + request.customArgs);
    assert s[1..] == JoinTrailing(ws) + request.customArgs;
    assert s == LaunchArguments(config, names, host, masterAddress, masterPort, request, port);
    var fixed := FixedWords(config, names, masterAddress, masterPort, request, port);
    assert ws[|ws| - 7] == fixed[5] && ws[|ws| - 5] == fixed[7];
    IntRoundTrip(request.spawnId);
    IntRoundTrip(port);
  }

  // ---------------------------------------------------------------------
  // The request lifecycle.
  // ---------------------------------------------------------------------

  datatype ResponseStatus = Success | Failed | Error

  /** A response to the spawn request of a spawn id. */
  datatype SpawnResponse = SpawnResponse(spawnId: int, status: ResponseStatus)

  /** Messages to the master: `ProcessStarted` (with the command line) and `ProcessKilled`. */
  datatype Notification = ProcessStartedNote(spawnId: int, processId: int, cmdArgs: string) | ProcessKilledNote(spawnId: int)

  /** What `HandleSpawnRequest` prepared for one request: the port it leased, the path and the arguments. */
  datatype Launch = Launch(spawnId: int, port: int, path: string, arguments: string)

  datatype Handler = Handler(pool: PortPool, processes: map<int, int>, responses: seq<SpawnResponse>, notifications: seq<Notification>)

  const InitialHandler: Handler := Handler(InitialPool, map[], [], [])

  /** `HandleSpawnRequest` up to the start of the launch thread; a thread that cannot be started answers with an error. */
  function Prepare(h: Handler, config: SpawnerConfig, names: ArgNames, host: Host, masterAddress: string, masterPort: int,
                   request: SpawnRequest, threadStarts: bool): (Handler, Launch) {
    var (pool', port) := TakePort(h.pool);
    var launch := Launch(request.spawnId, port, ExecutablePath(config, host, request),
                         LaunchArguments(config, names, host, masterAddress, masterPort, request, port));
    var h' := h.(pool := pool');
    if threadStarts then (h', launch)
    else (h'.(responses := h.responses + [SpawnResponse(request.spawnId, Error)]), launch)
  }

  /** The process of a launch started with id `processId`: tracked, answered with success, reported started. */
  function Started(h: Handler, launch: Launch, processId: int, connected: bool): Handler {
    h.(processes := h.processes[launch.spawnId := processId],
       responses := h.responses + [SpawnResponse(launch.spawnId, Success)],
       notifications := if connected then h.notifications + [ProcessStartedNote(launch.spawnId, processId, launch.arguments)] else h.notifications)
  }

  /**
   * The end of a launch thread, whether the process exited or never
   * started: a failure response only when it never started, then the
   * `finally` block: forget the process, release the port, report it killed.
   */
  function Finished(h: Handler, launch: Launch, started: bool, connected: bool): Handler {
    var answered := if started then h.responses else h.responses + [SpawnResponse(launch.spawnId, Failed)];
    h.(processes := h.processes - {launch.spawnId},
       pool := FreePort(h.pool, launch.port),
       responses := answered,
       notifications := if connected then h.notifications + [ProcessKilledNote(launch.spawnId)] else h.notifications)
  }

  /** `HandleKillRequest`: forget the process, then kill it; only a failing kill answers false. */
  function Kill(h: Handler, spawnId: int, killFails: bool): (Handler, bool) {
    (h.(processes := h.processes - {spawnId}), !(spawnId in h.processes && killFails))
  }

  /** Responses to one spawn id. */
  function ResponsesTo(rs: seq<SpawnResponse>, spawnId: int): seq<ResponseStatus> {
    if rs == [] then [] else (if rs[0].spawnId == spawnId then [rs[0].status] else []) + ResponsesTo(rs[1..], spawnId)
  }

  lemma {:induction false} ResponsesToAppend(rs: seq<SpawnResponse>, r: SpawnResponse, spawnId: int)
    ensures ResponsesTo(rs + [r], spawnId) == ResponsesTo(rs, spawnId) + (if r.spawnId == spawnId then [r.status] else [])
  {
    if rs != [] {
      assert (rs + [r])[1..] == rs[1..] + [r];
      ResponsesToAppend(rs[1..], r, spawnId);
    }
  }

  /**
   * Whatever the outcome of a launch, afterwards its port is released at
   * the tail of the free queue, its process entry is gone, the request was
   * answered exactly once (success when the process started, failure when
   * it did not), and a kill report went out when the client is connected.
   */
  lemma LaunchLifecycle(h: Handler, launch: Launch, started: bool, processId: int, connectedAtStart: bool, connectedAtEnd: bool)
    requires ResponsesTo(h.responses, launch.spawnId) == []
    ensures var h1 := if started then Started(h, launch, processId, connectedAtStart) else h;
      var h2 := Finished(h1, launch, started, connectedAtEnd);
      && h2.pool.freePorts == h.pool.freePorts + [launch.port]
      && h2.pool.lastPortTaken == h.pool.lastPortTaken
      && launch.spawnId !in h2.processes
      && ResponsesTo(h2.responses, launch.spawnId) == [if started then Success else Failed]
      && h2.notifications == (if started && connectedAtStart then h.notifications + [ProcessStartedNote(launch.spawnId, processId, launch.arguments)] else h.notifications)
                             + (if connectedAtEnd then [ProcessKilledNote(launch.spawnId)] else [])
  {
    var id := launch.spawnId;
    if started {
      ResponsesToAppend(h.responses, SpawnResponse(id, Success), id);
    } else {
      ResponsesToAppend(h.responses, SpawnResponse(id, Failed), id);
    }
  }

  /** A kill of an unknown spawn id still answers true; a known one is forgotten even when the kill fails. */
  lemma KillOutcomes(h: Handler, spawnId: int, killFails: bool)
    ensures var (h', ok) := Kill(h, spawnId, killFails);
      && spawnId !in h'.processes
      && (spawnId !in h.processes ==> ok && h' == h)
      && (!ok <==> spawnId in h.processes && killFails)
  {
  }

  // ---------------------------------------------------------------------
  // The handler object.
  // ---------------------------------------------------------------------

  class ProcessSpawnerRequestHandler {
    const config: SpawnerConfig
    const names: ArgNames
    const host: Host
    /** `_client.Config.Network`: the master's address and port. */
    const masterAddress: string
    const masterPort: int
    var processes: map<int, int>
    var lastPortTaken: int
    var freePorts: seq<int>
    var responses: seq<SpawnResponse>
    var notifications: seq<Notification>

    function Model(): Handler
      reads this
    {
      Handler(PortPool(lastPortTaken, freePorts), processes, responses, notifications)
    }

    constructor (config: SpawnerConfig, names: ArgNames, host: Host, masterAddress: string, masterPort: int)
      ensures Model() == InitialHandler
      ensures this.config == config && this.names == names && this.host == host
      ensures this.masterAddress == masterAddress && this.masterPort == masterPort
    {
      this.config := config;
      this.names := names;
      this.host := host;
      this.masterAddress := masterAddress;
      this.masterPort := masterPort;
      processes := map[];
      lastPortTaken := -1;
      freePorts := [];
      responses := [];
      notifications := [];
    }

    method GetAvailablePort() returns (port: int)
      modifies this
      ensures (Model().pool, port) == TakePort(old(Model()).pool)
      ensures Model() == old(Model()).(pool := Model().pool)
    {
      if |freePorts| > 0 {
        port := freePorts[0];
        freePorts := freePorts[1..];
        return;
      }
      if lastPortTaken < 0 {
        lastPortTaken := PortsStartFrom;
      }
      port := lastPortTaken;
      lastPortTaken := lastPortTaken + 1;
    }

    method ReleasePort(port: int)
      modifies this
      ensures Model() == old(Model()).(pool := FreePort(old(Model()).pool, port))
    {
      freePorts := freePorts + [port];
    }

    method HandleSpawnRequest(request: SpawnRequest, threadStarts: bool) returns (launch: Launch)
      modifies this
      ensures (Model(), launch) == Prepare(old(Model()), config, names, host, masterAddress, masterPort, request, threadStarts)
    {
      var port := GetAvailablePort();
      var path := ExecutablePath(config, host, request);
      var arguments := LaunchArguments(config, names, host, masterAddress, masterPort, request, port);
      launch := Launch(request.spawnId, port, path, arguments);
      if !threadStarts {
        responses := responses + [SpawnResponse(request.spawnId, Error)];
      }
    }

    method OnProcessStarted(launch: Launch, processId: int, connected: bool)
      modifies this
      ensures Model() == Started(old(Model()), launch, processId, connected)
    {
      processes := processes[launch.spawnId := processId];
      responses := responses + [SpawnResponse(launch.spawnId, Success)];
      if connected {
        notifications := notifications + [ProcessStartedNote(launch.spawnId, processId, launch.arguments)];
      }
    }

    method OnLaunchFinished(launch: Launch, started: bool, connected: bool)
      modifies this
      ensures Model() == Finished(old(Model()), launch, started, connected)
    {
      if !started {
        responses := responses + [SpawnResponse(launch.spawnId, Failed)];
      }
      processes := processes - {launch.spawnId};
      ReleasePort(launch.port);
      if connected {
        notifications := notifications + [ProcessKilledNote(launch.spawnId)];
      }
    }

    method HandleKillRequest(spawnId: int, killFails: bool) returns (ok: bool)
      modifies this
      ensures (Model(), ok) == Kill(old(Model()), spawnId, killFails)
    {
      var known := spawnId in processes;
      processes := processes - {spawnId};
      if known && killFails {
        return false;
      }
      return true;
    }
  }
}
