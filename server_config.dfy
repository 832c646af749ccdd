/** The server configuration asset: one `ip:port` address string and the
  * queries that take it apart. */
module ServerConfigs {
  import opened Wrappers
  import opened Strings
  import opened Numbers

  const DefaultPort: int := 7777

  datatype ServerConfig = ServerConfig(serverAddress: string, serverLocation: string, showServerInfo: bool)

  /** The asset's serialized defaults. */
  const DefaultConfig: ServerConfig := ServerConfig("172.234.24.224:31139", "Chicago, Illinois", true)

  /** The text before the first ':', when that colon is not the first
    * character; otherwise the whole address. */
  function GetServerIP(config: ServerConfig): (ip: string)
    ensures |ip| <= |config.serverAddress| && ip == config.serverAddress[..|ip|]
    ensures IndexOf(config.serverAddress, ':') <= 0 ==> ip == config.serverAddress
    ensures IndexOf(config.serverAddress, ':') > 0 ==> ':' !in ip && |ip| == IndexOf(config.serverAddress, ':')
  {
    var address := config.serverAddress;
    if address == "" then ""
    else
      var colon := IndexOf(address, ':');
      if colon > 0 then address[..colon] else address
  }

  /** The port after the first ':', or 7777 when the address is empty, has
    * no colon after its first character, ends in the colon, or the rest
    * does not parse as a `ushort`. */
  function GetServerPort(config: ServerConfig): (port: int)
    ensures 0 <= port <= UInt16Max
    ensures var address, colon := config.serverAddress, IndexOf(config.serverAddress, ':');
      port != DefaultPort ==> 0 < colon < |address| - 1 && TryParseUInt16(address[colon + 1..]) == Some(port)
    ensures var address, colon := config.serverAddress, IndexOf(config.serverAddress, ':');
      0 < colon < |address| - 1 && TryParseUInt16(address[colon + 1..]).Some? ==>
        port == TryParseUInt16(address[colon + 1..]).value
  {
    var address := config.serverAddress;
    if address == "" then DefaultPort
    else
      var colon := IndexOf(address, ':');
      if 0 < colon < |address| - 1 then
        match TryParseUInt16(address[colon + 1..])
        case Some(port) => port
        case None => DefaultPort
      else DefaultPort
  }

  /** The stored address, untouched. */
  function GetFullAddress(config: ServerConfig): string {
    config.serverAddress
  }

  /** An empty address gives no IP and the default port. */
  lemma EmptyAddress(config: ServerConfig)
    requires config.serverAddress == ""
    ensures GetServerIP(config) == "" && GetServerPort(config) == DefaultPort
  {
  }

  /** A colon in first position: the whole text is the IP, the port is the
    * default. */
  lemma LeadingColon(config: ServerConfig)
    requires |config.serverAddress| > 0 && config.serverAddress[0] == ':'
    ensures GetServerIP(config) == config.serverAddress && GetServerPort(config) == DefaultPort
  {
  }

  /** For `host:port` with a non-empty host without ':' and a port that fits
    * a `ushort`, the queries give back the host and the port. */
  lemma HostPortRoundTrip(host: string, port: nat, location: string, show: bool)
    requires host != "" && ':' !in host && port <= UInt16Max
    ensures var config := ServerConfig(host + ":" + NatToString(port), location, show);
      GetServerIP(config) == host && GetServerPort(config) == port &&
      GetFullAddress(config) == GetServerIP(config) + ":" + NatToString(GetServerPort(config))
  {
    var address := host + ":" + NatToString(port);
    assert address[|host|] == ':' && address[..|host|] == host;
    assert IndexOf(address, ':') == |host|;
    assert address[|host| + 1..] == NatToString(port);
    UInt16RoundTrip(port);
  }

  /** The shipped asset points at 172.234.24.224, port 31139. */
  lemma DefaultConfigParts()
    ensures GetServerIP(DefaultConfig) == "172.234.24.224"
    ensures GetServerPort(DefaultConfig) == 31139
  {
    assert NatToString(3) == "3";
    assert NatToString(31) == "31";
    assert NatToString(311) == "311";
    assert NatToString(3113) == "3113";
    assert NatToString(31139) == "31139";
    assert DefaultConfig.serverAddress == "172.234.24.224" + ":" + NatToString(31139);
    HostPortRoundTrip("172.234.24.224", 31139, "Chicago, Illinois", true);
  }
}
