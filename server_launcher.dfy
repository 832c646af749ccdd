/** The dedicated-server launcher: command-line flags override the port, the
  * player limit and the start scene, and the server is started once when
  * the build is headless or a server flag is given. */
module ServerLaunch {
  import opened Wrappers
  import opened Strings
  import opened Numbers

  /** The switch cases of the argument parser, after lower-casing. */
  datatype Flag = PortFlag | MaxPlayersFlag | SceneFlag | VerboseFlag | ServerFlag | NoFlag

  function ClassifyArg(arg: string): Flag {
    var a := ToLower(arg);
    if a == "-port" || a == "--port" then PortFlag
    else if a == "-maxplayers" || a == "--maxplayers" then MaxPlayersFlag
    else if a == "-scene" || a == "--scene" then SceneFlag
    else if a == "-verbose" || a == "--verbose" then VerboseFlag
    else if a == "-server" || a == "--server" then ServerFlag
    else NoFlag
  }

  /** The settings the arguments can change. */
  datatype Settings = Settings(port: int, maxConnections: int, startScene: string, verbose: bool)

  /** The effect of one flag; `next` is the argument after it, if any. */
  function ApplyFlag(st: Settings, flag: Flag, next: Option<string>): Settings {
    match flag
    case PortFlag =>
      if next.Some? && TryParseUInt16(next.value).Some? then st.(port := TryParseUInt16(next.value).value) else st
    case MaxPlayersFlag =>
      if next.Some? && TryParseInt32(next.value).Some? then st.(maxConnections := TryParseInt32(next.value).value) else st
    case SceneFlag =>
      if next.Some? then st.(startScene := next.value) else st
    case VerboseFlag => st.(verbose := true)
    case _ => st
  }

  /** The argument after index `i`, if there is one. */
  function Next(args: seq<string>, i: nat): (r: Option<string>)
    ensures r.Some? <==> i + 1 < |args|
    ensures r.Some? ==> r.value == args[i + 1]
  {
    if i + 1 < |args| then Some(args[i + 1]) else None
  }

  /** The effect of the argument at index `i`; a flag's value is the next
    * argument, which is itself examined on the following step. */
  function Step(st: Settings, args: seq<string>, i: nat): Settings
    requires i < |args|
  {
    ApplyFlag(st, ClassifyArg(args[i]), Next(args, i))
  }

  /** The settings after the first `n` arguments have been examined. */
  function ParsePrefix(st: Settings, args: seq<string>, n: nat): Settings
    requires n <= |args|
  {
    if n == 0 then st else Step(ParsePrefix(st, args, n - 1), args, n - 1)
  }

  /** Examining one more argument is one more step. */
  lemma PrefixStep(st: Settings, args: seq<string>, n: nat)
    requires n < |args|
    ensures ParsePrefix(st, args, n + 1) == Step(ParsePrefix(st, args, n), args, n)
  {
  }

  /** The port the argument at `i` sets: a port flag followed by text that
    * parses as a `ushort`. */
  function PortSetAt(args: seq<string>, i: nat): (r: Option<int>)
    requires i < |args|
    ensures r.Some? ==> ClassifyArg(args[i]) == PortFlag && i + 1 < |args| && 0 <= r.value <= UInt16Max
  {
    if ClassifyArg(args[i]) == PortFlag && i + 1 < |args| then TryParseUInt16(args[i + 1]) else None
  }

  /** The ports set by the first `n` arguments, in order. */
  function PortsSet(args: seq<string>, n: nat): (ports: seq<Option<int>>)
    requires n <= |args|
    ensures |ports| == n
  {
    seq(n, j requires 0 <= j < n => PortSetAt(args, j))
  }

  /** The last port in `ports`, or `port` when none is set. */
  function LastPortSet(port: int, ports: seq<Option<int>>): int {
    if ports == [] then port
    else if ports[|ports| - 1].Some? then ports[|ports| - 1].value
    else LastPortSet(port, ports[..|ports| - 1])
  }

  /** The port set at `i` is the last one when nothing after it sets one. */
  lemma {:induction false} LastSetWins(port: int, ports: seq<Option<int>>, i: nat)
    requires i < |ports| && ports[i].Some?
    requires forall j :: i < j < |ports| ==> ports[j].None?
    ensures LastPortSet(port, ports) == ports[i].value
  {
    if i < |ports| - 1 {
      var init := ports[..|ports| - 1];
      assert init[i] == ports[i];
      LastSetWins(port, init, i);
    }
  }

  /** With nothing set, the starting port stays. */
  lemma {:induction false} NothingSetKeeps(port: int, ports: seq<Option<int>>)
    requires forall j :: 0 <= j < |ports| ==> ports[j].None?
    ensures LastPortSet(port, ports) == port
  {
    if ports != [] {
      NothingSetKeeps(port, ports[..|ports| - 1]);
    }
  }

  /** One step changes the port exactly when its argument sets one. */
  lemma StepPort(st: Settings, args: seq<string>, i: nat)
    requires i < |args|
    ensures PortSetAt(args, i).Some? ==> Step(st, args, i).port == PortSetAt(args, i).value
    ensures PortSetAt(args, i).None? ==> Step(st, args, i).port == st.port
  {
  }

  /** After `n` arguments the port is the last one they set, or the
    * starting port. */
  lemma {:induction false} ParsePrefixPort(st: Settings, args: seq<string>, n: nat)
    requires n <= |args|
    ensures ParsePrefix(st, args, n).port == LastPortSet(st.port, PortsSet(args, n))
  {
    var ports := PortsSet(args, n);
    if n == 0 {
      assert ports == [];
    } else {
      var prev := ParsePrefix(st, args, n - 1);
      var earlier := LastPortSet(st.port, PortsSet(args, n - 1));
      assert prev.port == earlier by {
        ParsePrefixPort(st, args, n - 1);
      }
      assert ports[..n - 1] == PortsSet(args, n - 1);
      assert ports[n - 1] == PortSetAt(args, n - 1);
      assert LastPortSet(st.port, ports) == if ports[n - 1].Some? then ports[n - 1].value else earlier;
      assert ParsePrefix(st, args, n) == Step(prev, args, n - 1);
      StepPort(prev, args, n - 1);
    }
  }

  /** The last port flag with a valid value decides the port. */
  lemma LastPortWins(st: Settings, args: seq<string>, n: nat, i: nat)
    requires i < n <= |args| && PortSetAt(args, i).Some?
    requires forall j :: i < j < n ==> PortSetAt(args, j).None?
    ensures ParsePrefix(st, args, n).port == PortSetAt(args, i).value
  {
    ParsePrefixPort(st, args, n);
    LastSetWins(st.port, PortsSet(args, n), i);
  }

  /** Without a port flag carrying a valid value the port is left as it was:
    * an invalid value, or a flag with nothing after it, changes nothing. */
  lemma PortKeptWithoutValidFlag(st: Settings, args: seq<string>, n: nat)
    requires n <= |args|
    requires forall j :: 0 <= j < n ==> PortSetAt(args, j).None?
    ensures ParsePrefix(st, args, n).port == st.port
  {
    ParsePrefixPort(st, args, n);
    NothingSetKeeps(st.port, PortsSet(args, n));
  }

  /** A value-taking flag in the last position changes nothing. */
  lemma TrailingFlagIgnored(st: Settings, args: seq<string>)
    requires |args| >= 1 && ClassifyArg(args[|args| - 1]) in {PortFlag, MaxPlayersFlag, SceneFlag}
    ensures Step(st, args, |args| - 1) == st
  {
  }

  /** Flags match whatever their letter case. */
  lemma FlagCaseInsensitive(st: Settings, args: seq<string>, i: nat, other: string)
    requires i < |args| && ToLower(other) == ToLower(args[i])
    ensures Step(st, args[i := other], i) == Step(st, args, i)
  {
    assert ClassifyArg(other) == ClassifyArg(args[i]);
    assert i + 1 < |args| ==> args[i := other][i + 1] == args[i + 1];
  }

  class ServerLauncher {
    var autoStartInHeadless: bool
    var defaultPort: int
    var defaultMaxConnections: int
    var serverStartScene: string
    var verboseLogging: bool
    var hasNetworkManager: bool
    var serverStarted: bool
    /** The name of the scene the scene manager has active. */
    var activeScene: string
    /** The exit code passed to `Application.Quit`, once a player build
      * has asked to quit. */
    var exitCode: Option<int>

    /** The inspector defaults: auto-start on, port 7777, 300 players,
      * "PortHarbor", verbose logging. */
    constructor (networkManagerFound: bool, currentScene: string)
      ensures autoStartInHeadless && defaultPort == 7777 && defaultMaxConnections == 300
      ensures serverStartScene == "PortHarbor" && verboseLogging
      ensures hasNetworkManager == networkManagerFound && !serverStarted && activeScene == currentScene
      ensures exitCode.None?
    {
      autoStartInHeadless := true;
      defaultPort := 7777;
      defaultMaxConnections := 300;
      serverStartScene := "PortHarbor";
      verboseLogging := true;
      hasNetworkManager := networkManagerFound;
      serverStarted := false;
      activeScene := currentScene;
      exitCode := None;
    }

    function Current(): Settings
      reads this
    {
      Settings(defaultPort, defaultMaxConnections, serverStartScene, verboseLogging)
    }

    /** Examines every argument in order and applies its flag. */
    method ParseCommandLineArguments(args: seq<string>)
      modifies this`defaultPort, this`defaultMaxConnections, this`serverStartScene, this`verboseLogging
      ensures Current() == ParsePrefix(old(Current()), args, |args|)
    {
      var i := 0;
      while i < |args|
        invariant 0 <= i <= |args|
        invariant Current() == ParsePrefix(old(Current()), args, i)
      {
        ApplyArgument(args, i);
        PrefixStep(old(Current()), args, i);
        i := i + 1;
      }
    }

    /** One case of the argument switch: the flag at `i`, with the argument
      * after it as its value. */
    method ApplyArgument(args: seq<string>, i: nat)
      requires i < |args|
      modifies this`defaultPort, this`defaultMaxConnections, this`serverStartScene, this`verboseLogging
      ensures Current() == Step(old(Current()), args, i)
    {
      var flag := ClassifyArg(args[i]);
      var next := Next(args, i);
      match flag {
      case PortFlag =>
        if next.Some? {
          var parsed := TryParseUInt16(next.value);
          if parsed.Some? {
            defaultPort := parsed.value;
          }
        }
      case MaxPlayersFlag =>
        if next.Some? {
          var parsed := TryParseInt32(next.value);
          if parsed.Some? {
            defaultMaxConnections := parsed.value;
          }
        }
      case SceneFlag =>
        if next.Some? {
          serverStartScene := next.value;
        }
      case VerboseFlag =>
        verboseLogging := true;
      case ServerFlag =>
      case NoFlag =>
      }
    }

    /** Starts the server unless there is no network manager or it already
      * runs; the start scene is loaded first when it is named and not
      * already active. `startFails` stands for the network manager's
      * `StartServer` throwing; the player build then quits with code 1. */
    method StartServer(startFails: bool)
      modifies this`serverStarted, this`activeScene, this`exitCode
      ensures !hasNetworkManager || old(serverStarted) ==> unchanged(this)
      ensures hasNetworkManager && !old(serverStarted) ==>
        serverStarted == !startFails &&
        activeScene == (if serverStartScene != "" then serverStartScene else old(activeScene)) &&
        exitCode == (if startFails then Some(1) else old(exitCode))
    {
      if !hasNetworkManager {
        return;
      }
      if serverStarted {
        return;
      }
      if serverStartScene != "" && activeScene != serverStartScene {
        activeScene := serverStartScene;
      }
      if !startFails {
        serverStarted := true;
      } else {
        exitCode := Some(1);
      }
    }

    /** Starts the server when the build is headless and auto-start is on,
      * or when "-server" or "--server" is among the arguments (matched
      * exactly, unlike the parser's flags). */
    method CheckAndStartServer(headless: bool, args: seq<string>, startFails: bool)
      modifies this`serverStarted, this`activeScene, this`exitCode
      ensures old(serverStarted) ==> unchanged(this)
      ensures serverStarted <==>
        old(serverStarted) ||
        (((headless && autoStartInHeadless) || "-server" in args || "--server" in args) && hasNetworkManager && !startFails)
      ensures !old(serverStarted) && ((headless && autoStartInHeadless) || "-server" in args || "--server" in args) && hasNetworkManager ==>
        activeScene == (if serverStartScene != "" then serverStartScene else old(activeScene)) &&
        exitCode == (if startFails then Some(1) else old(exitCode))
      ensures !(((headless && autoStartInHeadless) || "-server" in args || "--server" in args) && hasNetworkManager) ==>
        activeScene == old(activeScene) && exitCode == old(exitCode)
    {
      if serverStarted {
        return;
      }
      var shouldStartServer := false;
      if headless {
        shouldStartServer := autoStartInHeadless;
      }
      if "-server" in args || "--server" in args {
        shouldStartServer := true;
      }
      if shouldStartServer {
        StartServer(startFails);
      }
    }
  }
}
