/** The client's server browser: the list fetched from the backend, the
  * fallback entry built from the bundled server configuration when the
  * backend fails, and the queries the menus ask of the list. The HTTP
  * requests and their answers become parameters; the coroutine is split at
  * its first `yield` into the start of a fetch and its completion. */
module ServerBrowser {
  import opened Wrappers
  import opened Strings
  import opened Numbers
  import opened ServerConfigs

  /** A server as the backend describes it. */
  datatype ServerInfo = ServerInfo(
    serverId: string, serverName: string, ipAddress: string, port: int, healthPort: int,
    region: string, city: string, country: string,
    currentPlayers: int, maxPlayers: int, pingMs: int, isHealthy: bool,
    status: string, tags: seq<string>)

  /** `GetConnectionAddress`: the address, a colon, then the port's text. */
  function GetConnectionAddress(s: ServerInfo): (address: string)
    ensures |address| > |s.ipAddress| && StartsWith(address, s.ipAddress) && address[|s.ipAddress|] == ':'
  {
    var address := s.ipAddress + ":" + IntToString(s.port);
    assert address[..|s.ipAddress|] == s.ipAddress;
    address
  }

  /** The text after the address's colon reads back as the port. */
  lemma ConnectionAddressPort(s: ServerInfo)
    ensures ParseInteger(GetConnectionAddress(s)[|s.ipAddress| + 1..]) == Some(s.port)
  {
    assert GetConnectionAddress(s)[|s.ipAddress| + 1..] == IntToString(s.port);
    ParseIntToString(s.port);
  }

  /** The connection address is one the bundled configuration reads back
    * as the same host and port. */
  lemma ConnectionAddressRoundTrip(s: ServerInfo, location: string, show: bool)
    requires s.ipAddress != "" && ':' !in s.ipAddress && 0 <= s.port <= UInt16Max
    ensures var config := ServerConfig(GetConnectionAddress(s), location, show);
      GetServerIP(config) == s.ipAddress && GetServerPort(config) == s.port
  {
    HostPortRoundTrip(s.ipAddress, s.port, location, show);
  }

  /** `GetDisplayName`: the city, then either "Offline" or the player counts
    * and the ping. */
  function GetDisplayName(s: ServerInfo): (name: string)
    ensures StartsWith(name, s.city)
    ensures EndsWith(name, " - Offline") <==> !s.isHealthy
    ensures s.isHealthy ==> EndsWith(name, "ms")
  {
    if !s.isHealthy then
      var name := s.city + " - Offline";
      assert name[..|s.city|] == s.city;
      name
    else
      var name := s.city + " (" + IntToString(s.currentPlayers) + "/" + IntToString(s.maxPlayers)
        + " players) - " + IntToString(s.pingMs) + "ms";
      assert name[..|s.city|] == s.city;
      assert name[|name| - 1] == 's';
      name
  }

  /** The port the health endpoint is asked on: the server's own health
    * port when it has one, 8080 otherwise. */
  function HealthCheckPort(s: ServerInfo): (port: int)
    ensures port > 0
    ensures s.healthPort > 0 ==> port == s.healthPort
  {
    if s.healthPort > 0 then s.healthPort else 8080
  }

  datatype PlayerCount = PlayerCount(players: int, maxPlayers: int)

  /** What the health request found: an answer within the timeout, with the
    * counts when its body held a parseable player count, or a failure. */
  datatype HealthProbe = Reachable(pingMs: int, counts: Option<PlayerCount>) | Unreachable

  /** `ValidateServerHealth`: a reachable server is healthy with the
    * measured ping and, when reported, the player counts. */
  function ApplyHealthCheck(s: ServerInfo, probe: HealthProbe): (r: ServerInfo)
    ensures r.isHealthy <==> probe.Reachable?
    ensures probe.Reachable? ==> r.pingMs == probe.pingMs
    ensures probe.Reachable? && probe.counts.Some? ==>
      r.currentPlayers == probe.counts.value.players && r.maxPlayers == probe.counts.value.maxPlayers
    ensures (probe.Unreachable? || probe.counts.None?) ==>
      r.currentPlayers == s.currentPlayers && r.maxPlayers == s.maxPlayers
    ensures r.ipAddress == s.ipAddress && r.port == s.port && r.serverId == s.serverId && r.city == s.city
  {
    match probe
    case Unreachable => s.(isHealthy := false)
    case Reachable(ping, counts) =>
      var t := s.(isHealthy := true, pingMs := ping);
      match counts
      case None => t
      case Some(c) => t.(currentPlayers := c.players, maxPlayers := c.maxPlayers)
  }

  /** The entry `TryFallbackConfig` builds before its health check. The
    * address and port are set only when the configured address splits on
    * ':' into exactly two pieces; the port only when the second piece
    * parses as an `int`. Unset they keep their defaults, modelled as ""
    * and 0. */
  function FallbackServer(config: ServerConfig): (r: ServerInfo)
    ensures r.serverId == "fallback" && r.serverName == config.serverLocation + " (Fallback)"
    ensures r.city == config.serverLocation && r.region == config.serverLocation
    ensures !r.isHealthy && r.pingMs == 9999 && r.status == "Unknown" && r.healthPort == 30407
    ensures |Split(config.serverAddress, ':')| != 2 ==> r.ipAddress == "" && r.port == 0
    ensures r.port != 0 ==>
      |Split(config.serverAddress, ':')| == 2 && TryParseInt32(Split(config.serverAddress, ':')[1]) == Some(r.port)
  {
    var parts := Split(config.serverAddress, ':');
    var location := config.serverLocation;
    var ip := if |parts| == 2 then parts[0] else "";
    var port := if |parts| == 2 && TryParseInt32(parts[1]).Some? then TryParseInt32(parts[1]).value else 0;
    ServerInfo("fallback", location + " (Fallback)", ip, port, 30407,
               location, location, "", 0, 0, 9999, false, "Unknown", [])
  }

  /** For `host:port` with a host and port without ':', the fallback entry
    * carries that host and port. */
  lemma FallbackHostPort(config: ServerConfig, host: string, port: int)
    requires ':' !in host && Int32Min <= port <= Int32Max
    requires config.serverAddress == host + ":" + IntToString(port)
    ensures FallbackServer(config).ipAddress == host && FallbackServer(config).port == port
  {
    var digits := IntToString(port);
    assert ':' !in digits;
    assert config.serverAddress == host + [':'] + digits;
    SplitAtFirst(host, ':', digits);
    SplitWithout(digits, ':');
    assert Split(config.serverAddress, ':') == [host, digits];
    Int32RoundTrip(port);
  }

  /** An address with a second ':' gives no address and no port at all. */
  lemma FallbackRefusesExtraColon(config: ServerConfig, a: string, b: string, c: string)
    requires ':' !in a && ':' !in b
    requires config.serverAddress == a + ":" + b + ":" + c
    ensures FallbackServer(config).ipAddress == "" && FallbackServer(config).port == 0
  {
    assert config.serverAddress == a + [':'] + (b + [':'] + c);
    SplitAtFirst(a, ':', b + [':'] + c);
    SplitAtFirst(b, ':', c);
  }

  /** Two pieces split on ':' are the text before the colon and the text
    * after it. */
  lemma TwoPieces(address: string)
    requires |Split(address, ':')| == 2
    ensures var k := IndexOf(address, ':');
      k >= 0 && Split(address, ':') == [address[..k], address[k + 1..]]
  {
    var k := IndexOf(address, ':');
    var rest := address[k + 1..];
    assert Split(address, ':') == [address[..k]] + Split(rest, ':');
    assert |Split(rest, ':')| == 1;
    assert IndexOf(rest, ':') < 0;
  }

  /** Where both readers accept the address (two pieces, a non-empty host,
    * a `ushort` port), the fallback entry and the bundled configuration
    * agree on host and port. */
  lemma FallbackAgreesWithConfig(config: ServerConfig)
    requires |Split(config.serverAddress, ':')| == 2
    requires Split(config.serverAddress, ':')[0] != ""
    requires TryParseUInt16(Split(config.serverAddress, ':')[1]).Some?
    ensures FallbackServer(config).ipAddress == GetServerIP(config)
    ensures FallbackServer(config).port == GetServerPort(config)
  {
    var address := config.serverAddress;
    TwoPieces(address);
    var k := IndexOf(address, ':');
    var tail := address[k + 1..];
    assert Split(address, ':')[1] == tail;
    assert 0 < k < |address| - 1;
    UInt16ParseIsInt32Parse(tail);
  }

  /** `serverList.Count(s => s.isHealthy)`. */
  function CountHealthy(servers: seq<ServerInfo>): (n: nat)
    ensures n <= |servers|
    ensures n == 0 <==> forall i :: 0 <= i < |servers| ==> !servers[i].isHealthy
    ensures n == |servers| <==> forall i :: 0 <= i < |servers| ==> servers[i].isHealthy
  {
    if servers == [] then 0
    else CountHealthy(servers[..|servers| - 1]) + (if servers[|servers| - 1].isHealthy then 1 else 0)
  }

  /** `servers[i]` is healthy and no server before it is. */
  predicate IsFirstHealthy(servers: seq<ServerInfo>, i: int) {
    0 <= i < |servers| && servers[i].isHealthy && forall j :: 0 <= j < i ==> !servers[j].isHealthy
  }

  /** `FirstOrDefault(s => s.isHealthy)`. */
  function FirstHealthy(servers: seq<ServerInfo>): (r: Option<ServerInfo>)
    ensures r.None? <==> forall i :: 0 <= i < |servers| ==> !servers[i].isHealthy
    ensures r.Some? ==> exists i :: IsFirstHealthy(servers, i) && servers[i] == r.value
  {
    if servers == [] then None
    else if servers[0].isHealthy then Some(servers[0])
    else
      var r := FirstHealthy(servers[1..]);
      assert r.Some? ==> exists i :: IsFirstHealthy(servers[1..], i) && servers[1..][i] == r.value;
      r
  }

  /** Healthy servers come before unhealthy ones, as the backend orders the
    * list. */
  predicate HealthyFirst(servers: seq<ServerInfo>) {
    forall i, j :: 0 <= i < j < |servers| && servers[j].isHealthy ==> servers[i].isHealthy
  }

  /** On a list ordered healthy first, the first healthy server is the head
    * of the list when the head is healthy, and there is none otherwise. */
  lemma FirstHealthyOfOrderedList(servers: seq<ServerInfo>)
    requires HealthyFirst(servers) && servers != []
    ensures FirstHealthy(servers) == (if servers[0].isHealthy then Some(servers[0]) else None)
  {
    if !servers[0].isHealthy {
      assert forall i :: 0 <= i < |servers| ==> !servers[i].isHealthy;
    }
  }

  /** `FirstOrDefault(s => s.serverId == serverId)`. */
  function FindById(servers: seq<ServerInfo>, serverId: string): (r: Option<ServerInfo>)
    ensures r.None? <==> forall i :: 0 <= i < |servers| ==> servers[i].serverId != serverId
    ensures r.Some? ==> r.value in servers && r.value.serverId == serverId
  {
    if servers == [] then None
    else if servers[0].serverId == serverId then Some(servers[0])
    else FindById(servers[1..], serverId)
  }

  /** How the backend request ended: an answer whose JSON held a server
    * list (or a null one), an answer whose JSON did not parse, or an HTTP
    * failure. */
  datatype FetchResult = Received(servers: Option<seq<ServerInfo>>) | ParseError(message: string) | RequestFailed(error: string)

  class ServerBrowserManager {
    var backendApiUrl: string
    var fallbackConfig: Option<ServerConfig>
    var isFetching: bool
    var serversFound: int
    var healthyServers: int
    var lastError: string
    var serverList: seq<ServerInfo>

    constructor(fallback: Option<ServerConfig>)
      ensures backendApiUrl == "http://localhost:5000" && fallbackConfig == fallback
      ensures !isFetching && serversFound == 0 && healthyServers == 0 && lastError == "" && serverList == []
    {
      backendApiUrl := "http://localhost:5000";
      fallbackConfig := fallback;
      isFetching := false;
      serversFound := 0;
      healthyServers := 0;
      lastError := "";
      serverList := [];
    }

    /** The request URL of a fetch. */
    function RequestUrl(forceRefresh: bool): (url: string)
      reads this`backendApiUrl
      ensures StartsWith(url, backendApiUrl + "/api/servers")
      ensures forceRefresh <==> EndsWith(url, "?forceRefresh=true")
    {
      var url := backendApiUrl + "/api/servers";
      assert url[|url| - 1] == 's';
      if forceRefresh then url + "?forceRefresh=true" else url
    }

    /** `RefreshServers`: while a fetch runs, nothing happens; otherwise the
      * fetch starts, clearing the list and the last error, and `request` is
      * the URL it asks. */
    method RefreshServers(forceRefresh: bool) returns (request: Option<string>)
      modifies this`isFetching, this`lastError, this`serverList
      ensures old(isFetching) ==> request.None? && isFetching && lastError == old(lastError) && serverList == old(serverList)
      ensures !old(isFetching) ==> request == Some(RequestUrl(forceRefresh)) && isFetching && lastError == "" && serverList == []
    {
      if isFetching {
        return None;
      }
      isFetching := true;
      lastError := "";
      serverList := [];
      request := Some(RequestUrl(forceRefresh));
    }

    /** The rest of `FetchServersFromBackend`, once the request has ended:
      * a parsed list replaces the cached one with its counts; anything else
      * records the error and tries the fallback entry. The fetch is then
      * over. */
    method FinishFetch(result: FetchResult, probe: HealthProbe)
      requires isFetching
      modifies this`isFetching, this`lastError, this`serverList, this`serversFound, this`healthyServers
      ensures !isFetching
      ensures result.Received? && result.servers.Some? ==>
        serverList == result.servers.value && serversFound == |serverList| &&
        healthyServers == CountHealthy(serverList)
      ensures result.Received? ==> lastError == old(lastError)
      ensures result.ParseError? ==> lastError == "JSON parsing error: " + result.message
      ensures result.RequestFailed? ==> lastError == "Backend error: " + result.error
      ensures !(result.Received? && result.servers.Some?) ==>
        FallbackOutcome(old(serverList), old(serversFound), old(healthyServers), probe)
    {
      match result {
        case Received(servers) =>
          if servers.Some? {
            serverList := servers.value;
            serversFound := |serverList|;
            healthyServers := CountHealthy(serverList);
          } else {
            TryFallbackConfig(probe);
          }
        case ParseError(message) =>
          lastError := "JSON parsing error: " + message;
          TryFallbackConfig(probe);
        case RequestFailed(error) =>
          lastError := "Backend error: " + error;
          TryFallbackConfig(probe);
      }
      isFetching := false;
    }

    /** What `TryFallbackConfig` leaves, from the list and counts it found:
      * the probed fallback entry appended with both counts at 1 when it is
      * healthy, and everything as it was otherwise (or with no fallback
      * configured). */
    ghost predicate FallbackOutcome(list: seq<ServerInfo>, found: int, healthy: int, probe: HealthProbe)
      reads this`fallbackConfig, this`serverList, this`serversFound, this`healthyServers
    {
      if fallbackConfig.Some? && probe.Reachable? then
        serverList == list + [ApplyHealthCheck(FallbackServer(fallbackConfig.value), probe)] &&
        serversFound == 1 && healthyServers == 1
      else
        serverList == list && serversFound == found && healthyServers == healthy
    }

    /** `TryFallbackConfig`. */
    method TryFallbackConfig(probe: HealthProbe)
      modifies this`serverList, this`serversFound, this`healthyServers
      ensures FallbackOutcome(old(serverList), old(serversFound), old(healthyServers), probe)
    {
      if fallbackConfig.None? {
        return;
      }
      var fallbackServer := FallbackServer(fallbackConfig.value);
      fallbackServer := ApplyHealthCheck(fallbackServer, probe);
      if fallbackServer.isHealthy {
        serverList := serverList + [fallbackServer];
        serversFound := 1;
        healthyServers := 1;
      }
    }

    /** `GetBestServer`: none on an empty list, else the first healthy
      * server, if any. */
    function GetBestServer(): (best: Option<ServerInfo>)
      reads this`serverList
      ensures best.None? <==> forall i :: 0 <= i < |serverList| ==> !serverList[i].isHealthy
      ensures best.Some? ==> best.value in serverList && best.value.isHealthy
    {
      if |serverList| == 0 then None else FirstHealthy(serverList)
    }

    /** `GetAllServers`: a copy of the list; the model's list is a value, so
      * the copy shares nothing with later changes to `serverList`. */
    method GetAllServers() returns (servers: seq<ServerInfo>)
      ensures servers == serverList
    {
      servers := serverList;
    }

    /** `GetServerById`. */
    function GetServerById(serverId: string): (r: Option<ServerInfo>)
      reads this`serverList
      ensures r.None? <==> forall i :: 0 <= i < |serverList| ==> serverList[i].serverId != serverId
      ensures r.Some? ==> r.value in serverList && r.value.serverId == serverId
    {
      FindById(serverList, serverId)
    }
  }
}
