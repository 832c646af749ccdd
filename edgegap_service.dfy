/** The backend's server list: deployments reported by the hosting API are
  * filtered by required tags, converted to server entries, probed for
  * health and ordered healthy first, then by players (most first), then by
  * ping (lowest first). HTTP calls become parameters. */
module EdgegapFilter {
  import opened Wrappers
  import opened Strings

  datatype EdgegapPort = EdgegapPort(external: int, internal: int, protocol: string)

  /** A deployment; `tags` is `None` when the JSON carried a null list. */
  datatype EdgegapDeployment = EdgegapDeployment(
    requestId: string, fqdn: string, publicIp: string, city: string, country: string,
    currentStatus: string, ports: map<string, EdgegapPort>, tags: Option<seq<string>>)

  datatype ServerInfo = ServerInfo(
    serverId: string, serverName: string, ipAddress: string, port: int,
    region: string, city: string, country: string,
    currentPlayers: int, maxPlayers: int, pingMs: int, isHealthy: bool,
    status: string, tags: seq<string>)

  /** What a health probe found: a parsed answer; a success whose body
    * deserializes to null (the JSON text `null`); or a failure (an error
    * status, a timeout, or any exception, including a body that does not
    * parse, such as an empty one). */
  datatype HealthOutcome = Healthy(players: int, maxPlayers: int, pingMs: int) | NullBody | Failed

  /** `Tags.Contains(tag, StringComparer.OrdinalIgnoreCase)`. */
  predicate HasTag(tags: seq<string>, tag: string) {
    exists i :: 0 <= i < |tags| && EqualsIgnoreCase(tags[i], tag)
  }

  /** The filter's test for one deployment: a non-empty tag list holding
    * every required tag. */
  predicate MatchesTags(d: EdgegapDeployment, requiredTags: seq<string>) {
    d.tags.Some? && |d.tags.value| > 0 &&
    forall k :: 0 <= k < |requiredTags| ==> HasTag(d.tags.value, requiredTags[k])
  }

  /** `s` keeps some of the elements of `t`, in their order. */
  predicate IsSublist<T(==)>(s: seq<T>, t: seq<T>)
    decreases |t|
  {
    s == [] || (|t| > 0 && ((s[0] == t[0] && IsSublist(s[1..], t[1..])) || IsSublist(s, t[1..])))
  }

  function KeepMatching(deployments: seq<EdgegapDeployment>, requiredTags: seq<string>): (r: seq<EdgegapDeployment>)
    ensures forall d :: d in r <==> d in deployments && MatchesTags(d, requiredTags)
    ensures IsSublist(r, deployments)
  {
    if deployments == [] then []
    else if MatchesTags(deployments[0], requiredTags) then [deployments[0]] + KeepMatching(deployments[1..], requiredTags)
    else KeepMatching(deployments[1..], requiredTags)
  }

  /** `FilterByTags`: without required tags the list is returned as it is;
    * otherwise the deployments that carry all of them, in order. */
  function FilterByTags(deployments: seq<EdgegapDeployment>, requiredTags: seq<string>): (r: seq<EdgegapDeployment>)
    ensures |requiredTags| == 0 ==> r == deployments
    ensures |requiredTags| > 0 ==> forall d :: d in r <==> d in deployments && MatchesTags(d, requiredTags)
    ensures IsSublist(r, deployments)
  {
    if |requiredTags| == 0 then
      SublistOfItself(deployments);
      deployments
    else KeepMatching(deployments, requiredTags)
  }

  lemma {:induction false} SublistOfItself<T>(s: seq<T>)
    ensures IsSublist(s, s)
  {
    if s != [] {
      SublistOfItself(s[1..]);
    }
  }

  /** A deployment without tags is dropped whenever some tag is required. */
  lemma UntaggedDropped(deployments: seq<EdgegapDeployment>, requiredTags: seq<string>, d: EdgegapDeployment)
    requires |requiredTags| > 0 && (d.tags.None? || d.tags.value == [])
    ensures d !in FilterByTags(deployments, requiredTags)
  {
  }

  /** `ConvertToServerInfo`: `None` without a "gameport" entry, or when the
    * tag list is null (copying it throws, and the exception is caught). A
    * new entry is unhealthy with ping 9999 until probed. */
  function ConvertToServerInfo(d: EdgegapDeployment): (r: Option<ServerInfo>)
    ensures r.Some? <==> "gameport" in d.ports && d.tags.Some?
    ensures r.Some? ==>
      !r.value.isHealthy && r.value.pingMs == 9999 && r.value.port == d.ports["gameport"].external &&
      r.value.serverId == d.requestId && r.value.ipAddress == d.publicIp && r.value.city == d.city &&
      r.value.serverName == d.city + " Server"
  {
    if "gameport" !in d.ports then None
    else match d.tags
      case None => None
      case Some(tags) =>
        Some(ServerInfo(
          d.requestId, d.city + " Server", d.publicIp, d.ports["gameport"].external,
          d.country, d.city, d.country, 0, 0, 9999, false, d.currentStatus, tags))
  }

  /** `ValidateServerHealthAsync`: a parsed answer marks the server healthy
    * with its player counts and ping; a body that deserializes to null
    * changes nothing; a failure marks it unhealthy. */
  function ValidateServerHealth(s: ServerInfo, outcome: HealthOutcome): (r: ServerInfo)
    ensures r.isHealthy <==> outcome.Healthy? || (outcome.NullBody? && s.isHealthy)
    ensures outcome.Healthy? ==> r.currentPlayers == outcome.players && r.pingMs == outcome.pingMs
    ensures r.serverId == s.serverId && r.ipAddress == s.ipAddress && r.port == s.port
  {
    match outcome
    case Healthy(players, maxPlayers, pingMs) =>
      s.(currentPlayers := players, maxPlayers := maxPlayers, isHealthy := true, pingMs := pingMs)
    case NullBody => s
    case Failed => s.(isHealthy := false)
  }

  /** The probed entries of the deployments that convert, in order;
    * `probe` stands for the health request to each server. */
  function Validated(deployments: seq<EdgegapDeployment>, probe: ServerInfo -> HealthOutcome): (r: seq<ServerInfo>)
    ensures |r| <= |deployments|
    ensures forall k :: 0 <= k < |r| ==>
      (exists j :: 0 <= j < |deployments| && ConvertToServerInfo(deployments[j]).Some? &&
        r[k] == ValidateServerHealth(ConvertToServerInfo(deployments[j]).value, probe(ConvertToServerInfo(deployments[j]).value)))
  {
    if deployments == [] then []
    else
      var rest := Validated(deployments[..|deployments| - 1], probe);
      match ConvertToServerInfo(deployments[|deployments| - 1])
      case None => rest
      case Some(s) => rest + [ValidateServerHealth(s, probe(s))]
  }

  /** `a` goes strictly before `b`: healthy first, then more players, then
    * lower ping. */
  predicate Before(a: ServerInfo, b: ServerInfo) {
    (a.isHealthy && !b.isHealthy) ||
    (a.isHealthy == b.isHealthy &&
      (a.currentPlayers > b.currentPlayers || (a.currentPlayers == b.currentPlayers && a.pingMs < b.pingMs)))
  }

  predicate Ordered(s: seq<ServerInfo>) {
    forall i, j :: 0 <= i < j < |s| ==> !Before(s[j], s[i])
  }

  /** Inserts `x` ahead of the first entry that does not go strictly
    * before it, so entries with equal keys keep their order. */
  function Insert(x: ServerInfo, s: seq<ServerInfo>): (r: seq<ServerInfo>)
    ensures multiset(r) == multiset(s) + multiset{x}
    ensures |r| == |s| + 1
  {
    if s == [] || !Before(s[0], x) then [x] + s
    else
      assert s == [s[0]] + s[1..];
      [s[0]] + Insert(x, s[1..])
  }

  lemma {:induction false} InsertOrdered(x: ServerInfo, s: seq<ServerInfo>)
    requires Ordered(s)
    ensures Ordered(Insert(x, s))
  {
    if s == [] || !Before(s[0], x) {
      var r := [x] + s;
      forall i, j | 0 <= i < j < |r| ensures !Before(r[j], r[i]) {
        if i == 0 {
          assert r[j] == s[j - 1];
          if j > 1 {
            assert !Before(s[j - 1], s[0]);
          }
        }
      }
    } else {
      InsertOrdered(x, s[1..]);
      var t := Insert(x, s[1..]);
      var r := [s[0]] + t;
      forall i, j | 0 <= i < j < |r| ensures !Before(r[j], r[i]) {
        if i == 0 {
          assert r[j] in multiset(t);
          assert r[j] in multiset(s[1..]) + multiset{x};
          if r[j] != x {
            assert r[j] in s[1..];
            var k :| 0 <= k < |s[1..]| && s[1..][k] == r[j];
            assert s[k + 1] == r[j];
          }
        } else {
          assert r[i] == t[i - 1] && r[j] == t[j - 1];
        }
      }
    }
  }

  /** The ordering of `GetActiveServersAsync`: an insertion sort, stable
    * like LINQ's `OrderByDescending(...).ThenByDescending(...).ThenBy(...)`. */
  function SortServers(s: seq<ServerInfo>): (r: seq<ServerInfo>)
    ensures multiset(r) == multiset(s)
    ensures |r| == |s|
  {
    if s == [] then []
    else
      assert s == [s[0]] + s[1..];
      Insert(s[0], SortServers(s[1..]))
  }

  /** The sort orders its input. */
  lemma {:induction false} SortServersOrdered(s: seq<ServerInfo>)
    ensures Ordered(SortServers(s))
  {
    if s != [] {
      SortServersOrdered(s[1..]);
      InsertOrdered(s[0], SortServers(s[1..]));
    }
  }

  /** Every healthy server comes before every unhealthy one. */
  lemma HealthyFirst(s: seq<ServerInfo>, i: nat, j: nat)
    requires i < |SortServers(s)| && j < |SortServers(s)|
    requires SortServers(s)[i].isHealthy && !SortServers(s)[j].isHealthy
    ensures i < j
  {
    SortServersOrdered(s);
  }

  /** How the request for the deployment list ended: a parsed answer
    * (`None` when it carried no data), an `HttpRequestException` (a
    * failed request or an error status), or any other exception, such as
    * an answer that does not parse. */
  datatype FetchOutcome =
    | Received(data: Option<seq<EdgegapDeployment>>)
    | HttpFailure
    | OtherFailure(message: string)

  /** The result of `GetActiveServersAsync`: the list, or the message of the
    * exception it throws. */
  datatype ServersResult = Servers(list: seq<ServerInfo>) | Thrown(message: string)

  const CommunicationError := "Failed to communicate with Edgegap API"

  /** `GetActiveServersAsync`. A failed request is rethrown as an
    * `InvalidOperationException` with its own message; any other exception
    * is rethrown as it is. */
  method GetActiveServers(response: FetchOutcome, requiredTags: seq<string>,
                          probe: ServerInfo -> HealthOutcome)
    returns (result: ServersResult)
    ensures response.HttpFailure? ==> result == Thrown(CommunicationError)
    ensures response.OtherFailure? ==> result == Thrown(response.message)
    ensures response == Received(None) ==> result == Servers([])
    ensures response.Received? && response.data.Some? ==>
      result == Servers(SortServers(Validated(FilterByTags(response.data.value, requiredTags), probe)))
  {
    match response
    case HttpFailure => return Thrown(CommunicationError);
    case OtherFailure(message) => return Thrown(message);
    case Received(data) =>
    if data.None? {
      return Servers([]);
    }
    var filteredDeployments := FilterByTags(data.value, requiredTags);
    var list: seq<ServerInfo> := [];
    var i := 0;
    while i < |filteredDeployments|
      invariant 0 <= i <= |filteredDeployments|
      invariant list == Validated(filteredDeployments[..i], probe)
    {
      assert filteredDeployments[..i + 1][..i] == filteredDeployments[..i];
      var serverInfo := ConvertToServerInfo(filteredDeployments[i]);
      if serverInfo.Some? {
        var checked := ValidateServerHealth(serverInfo.value, probe(serverInfo.value));
        list := list + [checked];
      }
      i := i + 1;
    }
    assert filteredDeployments[..i] == filteredDeployments;
    result := Servers(SortServers(list));
  }
}
