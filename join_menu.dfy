/** The join menu: reads the server address, splits `ip[:port]`, validates
  * the IP and connects; a periodic status check decides whether the
  * connect button is enabled. */
module JoinMenu {
  import opened Wrappers
  import opened Strings
  import opened Numbers
  import opened NetworkAddress
  import opened ServerConfigs

  datatype ServerStatus = Checking | Up | Down

  /** Where a connection goes: an IP and, when the address named one, a
    * transport port. */
  datatype ConnectTarget = ConnectTarget(ip: string, port: Option<int>)

  /** Where the status check looks: an IP and a port (7777 by default). */
  datatype StatusTarget = StatusTarget(ip: string, port: int)

  /** `IsValidIPAddress`: the same checks as the address book's validator,
    * with "localhost" checked once more at the end. */
  method IsValidIPAddress(ip: string) returns (valid: bool)
    ensures valid == ValidServerAddress(ip)
  {
    if ip == "" {
      NoEmptyAddress();
      return false;
    }
    if ip == "localhost" {
      return true;
    }
    var parts := Split(ip, '.');
    if |parts| == 4 {
      valid := AllOctets(parts);
      return;
    }
    return '.' in ip || ip == "localhost";
  }

  lemma SplitOnPresentSeparator(s: string, sep: char)
    requires sep in s
    ensures |Split(s, sep)| >= 2
  {
  }

  /** The connect path's reading of an address: with a ':' it must split
    * into exactly two parts whose second is a `ushort`; the IP must then be
    * valid. `None` is every refusal. */
  function ParseConnectAddress(address: string): (r: Option<ConnectTarget>)
    ensures r.Some? ==> ValidServerAddress(r.value.ip)
    ensures r.Some? && ':' in address ==>
      var parts := Split(address, ':');
      |parts| == 2 && r.value == ConnectTarget(parts[0], TryParseUInt16(parts[1])) && r.value.port.Some?
    ensures ':' !in address ==> r == if ValidServerAddress(address) then Some(ConnectTarget(address, None)) else None
  {
    if ':' in address then
      var parts := Split(address, ':');
      if |parts| == 2 && TryParseUInt16(parts[1]).Some? then
        if ValidServerAddress(parts[0]) then Some(ConnectTarget(parts[0], TryParseUInt16(parts[1]))) else None
      else None
    else if ValidServerAddress(address) then Some(ConnectTarget(address, None))
    else None
  }

  /** The status check's reading of an address: the second part after
    * splitting on ':' must be a `ushort`, but further parts are not
    * looked at; without a ':' the port is 7777. */
  function ParseStatusAddress(address: string): (r: Option<StatusTarget>)
    ensures r.Some? ==> ValidServerAddress(r.value.ip) && 0 <= r.value.port <= UInt16Max
    ensures r.Some? && ':' !in address ==> r.value == StatusTarget(address, DefaultPort)
    ensures address == "" ==> r.None?
  {
    if address == "" then None
    else if ':' in address then
      var parts := Split(address, ':');
      SplitOnPresentSeparator(address, ':');
      match TryParseUInt16(parts[1])
      case None => None
      case Some(port) => if ValidServerAddress(parts[0]) then Some(StatusTarget(parts[0], port)) else None
    else if ValidServerAddress(address) then Some(StatusTarget(address, DefaultPort))
    else None
  }

  /** Every address the connect path accepts passes the status check, with
    * the same IP and, when one is named, the same port. */
  lemma StatusAcceptsConnectable(address: string)
    requires ParseConnectAddress(address).Some?
    ensures ParseStatusAddress(address).Some?
    ensures var c, s := ParseConnectAddress(address).value, ParseStatusAddress(address).value;
      s.ip == c.ip && s.port == (if c.port.Some? then c.port.value else DefaultPort)
  {
  }

  /** A formatted dotted quad holds no ':'. */
  lemma FormattedHasNoColon(a: nat, b: nat, c: nat, d: nat)
    ensures ':' !in FormatIPv4(a, b, c, d)
  {
    DigitsHaveNoDot(a);
    DigitsHaveNoDot(b);
    DigitsHaveNoDot(c);
    DigitsHaveNoDot(d);
    JoinKeepsOut([NatToString(a), NatToString(b), NatToString(c), NatToString(d)], '.', ':');
  }

  /** A formatted dotted quad with a port connects to that IP and port. */
  lemma ConnectFormatted(a: nat, b: nat, c: nat, d: nat, port: nat)
    requires a <= 255 && b <= 255 && c <= 255 && d <= 255 && port <= UInt16Max
    ensures ParseConnectAddress(FormatIPv4(a, b, c, d) + ":" + NatToString(port)) ==
      Some(ConnectTarget(FormatIPv4(a, b, c, d), Some(port)))
  {
    var ip, digits := FormatIPv4(a, b, c, d), NatToString(port);
    var address := ip + ":" + digits;
    FormattedHasNoColon(a, b, c, d);
    DigitsHaveNoDot(port);
    assert address == ip + [':'] + digits;
    SplitAtFirst(ip, ':', digits);
    SplitWithout(digits, ':');
    assert Split(address, ':') == [ip, digits];
    assert ':' in address by {
      assert address[|ip|] == ':';
    }
    UInt16RoundTrip(port);
    DottedQuadValid(a, b, c, d);
  }

  /** How `ip:port:rest` splits on ':'. */
  lemma ExtraPartSplit(a: nat, b: nat, c: nat, d: nat, port: nat, rest: string)
    ensures var address := FormatIPv4(a, b, c, d) + ":" + NatToString(port) + ":" + rest;
      var parts := Split(address, ':');
      ':' in address && |parts| >= 3 && parts[0] == FormatIPv4(a, b, c, d) && parts[1] == NatToString(port)
  {
    var ip := FormatIPv4(a, b, c, d);
    var address := ip + ":" + NatToString(port) + ":" + rest;
    FormattedHasNoColon(a, b, c, d);
    DigitsHaveNoDot(port);
    assert address == ip + [':'] + (NatToString(port) + [':'] + rest);
    SplitAtFirst(ip, ':', NatToString(port) + [':'] + rest);
    SplitAtFirst(NatToString(port), ':', rest);
  }

  /** The converse of `StatusAcceptsConnectable` fails: after the port, a
    * further ':' and anything at all pass the status check ... */
  lemma StatusAcceptsExtraPart(a: nat, b: nat, c: nat, d: nat, port: nat, rest: string)
    requires a <= 255 && b <= 255 && c <= 255 && d <= 255 && port <= UInt16Max
    ensures ParseStatusAddress(FormatIPv4(a, b, c, d) + ":" + NatToString(port) + ":" + rest) ==
      Some(StatusTarget(FormatIPv4(a, b, c, d), port))
  {
    ExtraPartSplit(a, b, c, d, port, rest);
    UInt16RoundTrip(port);
    DottedQuadValid(a, b, c, d);
  }

  /** ... but are refused on connect. */
  lemma ConnectRefusesExtraPart(a: nat, b: nat, c: nat, d: nat, port: nat, rest: string)
    ensures ParseConnectAddress(FormatIPv4(a, b, c, d) + ":" + NatToString(port) + ":" + rest).None?
  {
    ExtraPartSplit(a, b, c, d, port, rest);
  }

  lemma {:induction false} JoinKeepsOut(parts: seq<string>, sep: char, c: char)
    requires c != sep
    requires forall i :: 0 <= i < |parts| ==> c !in parts[i]
    ensures c !in Join(parts, sep)
  {
    if |parts| > 1 {
      JoinKeepsOut(parts[1..], sep, c);
    }
  }

  /** The address handling of the connect button: an address with a ':'
    * must split into exactly two parts whose second is a `ushort`, and the IP
    * part must pass `IsValidIPAddress`. */
  method ResolveConnectAddress(serverAddress: string) returns (target: Option<ConnectTarget>)
    ensures target == ParseConnectAddress(serverAddress)
  {
    var serverIP: string;
    var serverPort: Option<int> := None;
    if ':' in serverAddress {
      var parts := Split(serverAddress, ':');
      serverIP := parts[0];
      if |parts| == 2 && TryParseUInt16(parts[1]).Some? {
        serverPort := TryParseUInt16(parts[1]);
      } else {
        return None;
      }
    } else {
      serverIP := serverAddress;
    }
    var valid := IsValidIPAddress(serverIP);
    if !valid {
      return None;
    }
    return Some(ConnectTarget(serverIP, serverPort));
  }

  class JoinMenuController {
    var currentServerStatus: ServerStatus
    var isConnecting: bool
    var hasConnectButton: bool
    var connectInteractable: bool
    var hasNetworkManager: bool
    /** Whether the network manager carries a `PortTransport` component. */
    var hasPortTransport: bool
    /** `networkManager.networkAddress`. */
    var networkAddress: string
    /** The port last written into the transport. */
    var transportPort: Option<int>
    var clientStarted: bool
    /** Whether the status-check coroutine is running. */
    var statusChecking: bool
    var serverConfig: Option<ServerConfig>
    var addressManager: NetworkAddressManager?

    constructor (config: Option<ServerConfig>, manager: NetworkAddressManager?, networkManagerFound: bool,
                 portTransportFound: bool, buttonFound: bool)
      ensures currentServerStatus == Checking && !isConnecting && !clientStarted && !statusChecking
      ensures serverConfig == config && addressManager == manager
      ensures hasNetworkManager == networkManagerFound && hasConnectButton == buttonFound
      ensures hasPortTransport == portTransportFound
      ensures networkAddress == "" && transportPort == None
    {
      currentServerStatus := Checking;
      isConnecting := false;
      hasConnectButton := buttonFound;
      connectInteractable := false;
      hasNetworkManager := networkManagerFound;
      hasPortTransport := portTransportFound;
      networkAddress := "";
      transportPort := None;
      clientStarted := false;
      statusChecking := false;
      serverConfig := config;
      addressManager := manager;
    }

    /** The address book, when there is one, as a frame. */
    function ManagerFrame(): set<NetworkAddressManager>
      reads this`addressManager
    {
      if addressManager == null then {} else {addressManager}
    }

    /** The configured address; without a configuration the last saved
    * address; failing that "127.0.0.1:7777". */
    function GetServerAddress(): (address: string)
      reads this`serverConfig, this`addressManager, ManagerFrame()`prefs, ManagerFrame()`defaultServerIP
      ensures serverConfig.Some? ==> address == serverConfig.value.serverAddress
      ensures serverConfig.None? ==> address != ""
      ensures serverConfig.None? && addressManager != null && addressManager.GetLastServerIP() != "" ==>
        address == addressManager.GetLastServerIP()
      ensures serverConfig.None? && (addressManager == null || addressManager.GetLastServerIP() == "") ==>
        address == "127.0.0.1:7777"
    {
      if serverConfig.Some? then GetFullAddress(serverConfig.value)
      else if addressManager != null && addressManager.GetLastServerIP() != "" then addressManager.GetLastServerIP()
      else "127.0.0.1:7777"
    }

    method StartStatusChecking()
      modifies this`statusChecking
      ensures statusChecking
    {
      statusChecking := true;
    }

    method StopStatusChecking()
      modifies this`statusChecking
      ensures !statusChecking
    {
      statusChecking := false;
    }

    /** Sets the status; the connect button is interactable exactly when
    * the server is up. */
    method UpdateServerStatus(status: ServerStatus)
      modifies this`currentServerStatus, this`connectInteractable
      ensures currentServerStatus == status
      ensures hasConnectButton ==> (connectInteractable <==> status == Up)
      ensures !hasConnectButton ==> connectInteractable == old(connectInteractable)
    {
      currentServerStatus := status;
      if hasConnectButton {
        connectInteractable := status == Up;
      }
    }

    /** `ConfigureTransportPort`: the port reaches the transport only when
      * there is a network manager and it has a `PortTransport`. */
    method ConfigureTransportPort(port: int)
      modifies this`transportPort
      ensures transportPort == if hasNetworkManager && hasPortTransport then Some(port) else old(transportPort)
    {
      if !hasNetworkManager {
        return;
      }
      if hasPortTransport {
        transportPort := Some(port);
      }
    }

    /** The connect button. Refused unless the server is up and a network
    * manager exists; every parse or validation failure clears
    * `isConnecting` and restarts the status check; otherwise the address is
    * saved and the client started. `startFails` stands for `StartClient`
    * throwing. */
    method OnConnectButtonClicked(startFails: bool)
      modifies this`isConnecting, this`statusChecking, this`networkAddress, this`transportPort, this`clientStarted
      modifies ManagerFrame()`recentServers, ManagerFrame()`prefs
      ensures old(currentServerStatus) != Up || !hasNetworkManager ==>
        unchanged(this) && unchanged(ManagerFrame())
      ensures old(currentServerStatus) == Up && hasNetworkManager && ParseConnectAddress(old(GetServerAddress())).None? ==>
        !isConnecting && statusChecking && clientStarted == old(clientStarted) &&
        networkAddress == old(networkAddress) && transportPort == old(transportPort) &&
        unchanged(ManagerFrame())
      ensures old(currentServerStatus) == Up && hasNetworkManager && ParseConnectAddress(old(GetServerAddress())).Some? ==>
        var address := old(GetServerAddress());
        var target := ParseConnectAddress(address).value;
        networkAddress == target.ip &&
        transportPort == (if target.port.Some? && hasPortTransport then target.port else old(transportPort)) &&
        (addressManager != null ==>
          addressManager.recentServers == Remembered(old(addressManager.recentServers), address, addressManager.maxRecentServers) &&
          addressManager.prefs == SavedPrefs(old(addressManager.prefs), old(addressManager.recentServers), address, addressManager.maxRecentServers))
      ensures old(currentServerStatus) == Up && hasNetworkManager && ParseConnectAddress(old(GetServerAddress())).Some? ==>
        isConnecting == !startFails && statusChecking == startFails &&
        clientStarted == (old(clientStarted) || !startFails)
    {
      if currentServerStatus != Up {
        return;
      }
      if !hasNetworkManager {
        return;
      }
      var serverAddress := GetServerAddress();
      Connect(serverAddress, startFails);
    }

    /** The connect button past its guards: the status check stops while
    * the address is resolved; an address that does not resolve ends the
    * attempt and restarts the check, one that does goes to `ConnectTo`. */
    method Connect(serverAddress: string, startFails: bool)
      requires hasNetworkManager
      modifies this`isConnecting, this`statusChecking, this`networkAddress, this`transportPort, this`clientStarted
      modifies ManagerFrame()`recentServers, ManagerFrame()`prefs
      ensures ParseConnectAddress(serverAddress).None? ==>
        !isConnecting && statusChecking && clientStarted == old(clientStarted) &&
        networkAddress == old(networkAddress) && transportPort == old(transportPort) &&
        unchanged(ManagerFrame())
      ensures ParseConnectAddress(serverAddress).Some? ==>
        var target := ParseConnectAddress(serverAddress).value;
        networkAddress == target.ip &&
        transportPort == (if target.port.Some? && hasPortTransport then target.port else old(transportPort)) &&
        (addressManager != null ==>
          addressManager.recentServers == Remembered(old(addressManager.recentServers), serverAddress, addressManager.maxRecentServers) &&
          addressManager.prefs == SavedPrefs(old(addressManager.prefs), old(addressManager.recentServers), serverAddress, addressManager.maxRecentServers)) &&
        isConnecting == !startFails && statusChecking == startFails &&
        clientStarted == (old(clientStarted) || !startFails)
    {
      isConnecting := true;
      StopStatusChecking();
      var target := ResolveConnectAddress(serverAddress);
      if target.None? {
        isConnecting := false;
        StartStatusChecking();
        return;
      }
      ConnectTo(serverAddress, target.value, startFails);
    }

    /** The accepted path of the connect button: the transport port is set
    * when the address names one, the address is remembered, the network
    * address is set and the client started. */
    method ConnectTo(serverAddress: string, target: ConnectTarget, startFails: bool)
      requires hasNetworkManager && isConnecting && !statusChecking
      modifies this`isConnecting, this`statusChecking, this`networkAddress, this`transportPort, this`clientStarted
      modifies ManagerFrame()`recentServers, ManagerFrame()`prefs
      ensures networkAddress == target.ip
      ensures transportPort == (if target.port.Some? && hasPortTransport then target.port else old(transportPort))
      ensures addressManager != null ==>
        addressManager.recentServers == Remembered(old(addressManager.recentServers), serverAddress, addressManager.maxRecentServers) &&
        addressManager.prefs == SavedPrefs(old(addressManager.prefs), old(addressManager.recentServers), serverAddress, addressManager.maxRecentServers)
      ensures isConnecting == !startFails && statusChecking == startFails
      ensures clientStarted == (old(clientStarted) || !startFails)
    {
      var serverIP, serverPort := target.ip, target.port;
      if serverPort.Some? {
        ConfigureTransportPort(serverPort.value);
      }
      if addressManager != null {
        addressManager.SaveServerIP(serverAddress);
      }
      networkAddress := serverIP;
      if startFails {
        isConnecting := false;
        StartStatusChecking();
      } else {
        clientStarted := true;
      }
    }

    /** One run of the status check. Skipped while connecting; otherwise
    * the status goes to Checking and then to Down for an unusable address
    * or a failed health request, and to Up when `healthOk`. */
    method CheckServerStatus(healthOk: bool)
      modifies this`currentServerStatus, this`connectInteractable
      ensures old(isConnecting) ==> unchanged(this)
      ensures !old(isConnecting) ==>
        currentServerStatus == (if ParseStatusAddress(old(GetServerAddress())).Some? && healthOk then Up else Down)
      ensures hasConnectButton && !old(isConnecting) ==> (connectInteractable <==> currentServerStatus == Up)
    {
      if isConnecting {
        return;
      }
      UpdateServerStatus(Checking);
      var serverAddress := GetServerAddress();
      assert serverAddress == old(GetServerAddress());
      ghost var expected := ParseStatusAddress(serverAddress);
      if serverAddress == "" {
        UpdateServerStatus(Down);
        return;
      }
      var serverIP: string;
      if ':' in serverAddress {
        var parts := Split(serverAddress, ':');
        SplitOnPresentSeparator(serverAddress, ':');
        serverIP := parts[0];
        if TryParseUInt16(parts[1]).None? {
          assert expected.None?;
          UpdateServerStatus(Down);
          return;
        }
      } else {
        serverIP := serverAddress;
      }
      var valid := IsValidIPAddress(serverIP);
      if !valid {
        assert expected.None?;
        UpdateServerStatus(Down);
        return;
      }
      assert expected.Some?;
      UpdateServerStatus(if healthOk then Up else Down);
    }
  }
}
