/** The client's server-address book: the most-recently-used list of server
  * addresses kept in the player preferences, the address validator and the
  * server-type classifier. */
module NetworkAddress {
  import opened Wrappers
  import opened Strings
  import opened Numbers

  /** Player preference keys. */
  const LastServerKey: string := "WOS_LastServerIP"
  const RecentServersKey: string := "WOS_RecentServers"

  predicate NoDup<T(==)>(s: seq<T>) {
    forall i, j :: 0 <= i < j < |s| ==> s[i] != s[j]
  }

  /** `PlayerPrefs.GetString(key, fallback)`. */
  function PrefString(prefs: map<string, string>, key: string, fallback: string): string {
    if key in prefs then prefs[key] else fallback
  }

  /** LINQ `Take(n)`. */
  function Take<T>(s: seq<T>, n: int): (r: seq<T>)
    ensures |r| == if n <= 0 then 0 else if |s| <= n then |s| else n
    ensures r == s[..|r|]
  {
    if n <= 0 then [] else if |s| <= n then s else s[..n]
  }

  /** The recent list after `SaveServerIP(ip)`: an empty or known address
    * leaves it alone; a new one goes to the front and the list is cut back
    * to `max` entries. */
  function Remembered(recent: seq<string>, ip: string, max: int): seq<string> {
    if ip == "" || ip in recent then recent
    else
      var inserted := [ip] + recent;
      if |inserted| > max then Take(inserted, max) else inserted
  }

  /** The stored preferences after `SaveServerIP(ip)`: an empty address
    * changes nothing; otherwise the last-server key holds the address, and
    * a new address also stores the joined recent list. */
  function SavedPrefs(prefs: map<string, string>, recent: seq<string>, ip: string, max: int): (p: map<string, string>)
    ensures ip == "" ==> p == prefs
    ensures ip != "" ==> LastServerKey in p && p[LastServerKey] == ip
    ensures ip != "" && ip !in recent ==> RecentServersKey in p && p[RecentServersKey] == Join(Remembered(recent, ip, max), ';')
    ensures ip in recent ==> (RecentServersKey in p <==> RecentServersKey in prefs)
    ensures p.Keys == prefs.Keys + (if ip == "" then {} else {LastServerKey}) + (if ip == "" || ip in recent then {} else {RecentServersKey})
  {
    if ip == "" then prefs
    else if ip in recent then prefs[LastServerKey := ip]
    else prefs[LastServerKey := ip][RecentServersKey := Join(Remembered(recent, ip, max), ';')]
  }

  /** A new address becomes the most recent entry, the older entries keep
    * their order behind it, and the list holds at most `max` entries. */
  lemma RememberedNew(recent: seq<string>, ip: string, max: int)
    requires ip != "" && ip !in recent && max >= 1
    ensures var r := Remembered(recent, ip, max);
      && 1 <= |r| <= max && r[0] == ip
      && r[1..] == recent[..|r| - 1]
  {
  }

  /** Saving the same address twice is the same as saving it once. */
  lemma RememberedIdempotent(recent: seq<string>, ip: string, max: int)
    ensures Remembered(Remembered(recent, ip, max), ip, max) == Remembered(recent, ip, max)
  {
    if ip != "" && ip !in recent && max >= 1 {
      RememberedNew(recent, ip, max);
    }
  }

  /** Saving never introduces a duplicate. */
  lemma RememberedNoDup(recent: seq<string>, ip: string, max: int)
    requires NoDup(recent)
    ensures NoDup(Remembered(recent, ip, max))
  {
    var r := Remembered(recent, ip, max);
    if ip != "" && ip !in recent {
      var inserted := [ip] + recent;
      forall i, j | 0 <= i < j < |inserted| ensures inserted[i] != inserted[j] {
        if i == 0 {
          assert inserted[j] == recent[j - 1];
        }
      }
    }
  }

  /** `List.Remove(x)`: drops the first occurrence of `x`, if any. */
  function RemoveFirst(s: seq<string>, x: string): seq<string> {
    if s == [] then []
    else if s[0] == x then s[1..]
    else [s[0]] + RemoveFirst(s[1..], x)
  }

  /** Removing takes away exactly one copy of `x` when there is one, and
    * keeps every other entry. */
  lemma {:induction false} RemoveFirstMultiset(s: seq<string>, x: string)
    ensures multiset(RemoveFirst(s, x)) == multiset(s) - multiset{x}
    ensures x in s ==> |RemoveFirst(s, x)| == |s| - 1
    ensures x !in s ==> RemoveFirst(s, x) == s
  {
    if s != [] {
      var t := s[1..];
      assert s == [s[0]] + t;
      assert multiset(s) == multiset{s[0]} + multiset(t);
      if s[0] == x {
        assert RemoveFirst(s, x) == t;
      } else {
        RemoveFirstMultiset(t, x);
        assert RemoveFirst(s, x) == [s[0]] + RemoveFirst(t, x);
        assert multiset(RemoveFirst(s, x)) == multiset{s[0]} + multiset(RemoveFirst(t, x));
        assert x in s <==> x in t;
      }
    }
  }

  /** In a list without duplicates, removing `x` leaves exactly the other
    * entries. */
  lemma RemoveOnly(s: seq<string>, x: string)
    requires NoDup(s)
    ensures forall y :: y in RemoveFirst(s, x) <==> y in s && y != x
  {
    RemoveFirstMultiset(s, x);
    forall y ensures y in RemoveFirst(s, x) <==> y in s && y != x {
      assert y in RemoveFirst(s, x) <==> y in multiset(RemoveFirst(s, x));
      if y == x && x in s {
        var k :| 0 <= k < |s| && s[k] == x;
        assert multiset(s)[x] == 1 by {
          NoDupCount(s, x, k);
        }
      }
    }
  }

  lemma {:induction false} NoDupCount(s: seq<string>, x: string, k: nat)
    requires NoDup(s) && k < |s| && s[k] == x
    ensures multiset(s)[x] == 1
  {
    assert s == [s[0]] + s[1..];
    if k == 0 {
      assert x !in s[1..];
    } else {
      assert NoDup(s[1..]);
      NoDupCount(s[1..], x, k - 1);
    }
  }

  /** The recent list `LoadRecentServers` produces from the stored string. */
  function Loaded(prefs: map<string, string>, current: seq<string>): seq<string> {
    var saved := PrefString(prefs, RecentServersKey, "");
    if saved != "" then Split(saved, ';') else current
  }

  /** Storing a non-empty list of non-empty entries without ';' and loading
    * it again gives the same list. */
  lemma SaveLoadRoundTrip(prefs: map<string, string>, recent: seq<string>, current: seq<string>)
    requires |recent| >= 1
    requires forall i :: 0 <= i < |recent| ==> recent[i] != "" && ';' !in recent[i]
    ensures Loaded(prefs[RecentServersKey := Join(recent, ';')], current) == recent
  {
    SplitJoin(recent, ';');
    JoinNonEmpty(recent, ';');
  }

  lemma {:induction false} JoinNonEmpty(parts: seq<string>, sep: char)
    requires |parts| >= 1 && parts[0] != ""
    ensures Join(parts, sep) != ""
  {
  }

  class NetworkAddressManager {
    var maxRecentServers: int
    var defaultServerIP: string
    var recentServers: seq<string>
    /** The player preferences this manager reads and writes. */
    var prefs: map<string, string>

    /** `Awake`: the defaults, then the stored recent list. */
    constructor (storedPrefs: map<string, string>)
      ensures maxRecentServers == 10 && defaultServerIP == "127.0.0.1"
      ensures prefs == storedPrefs
      ensures recentServers == Loaded(storedPrefs, [])
    {
      maxRecentServers := 10;
      defaultServerIP := "127.0.0.1";
      recentServers := [];
      prefs := storedPrefs;
      new;
      LoadRecentServers();
    }

    /** Records `ip` as the last server and remembers it in the recent
    * list. An empty address changes nothing. */
    method SaveServerIP(ip: string)
      modifies this`recentServers, this`prefs
      ensures ip == "" ==> recentServers == old(recentServers) && prefs == old(prefs)
      ensures recentServers == Remembered(old(recentServers), ip, maxRecentServers)
      ensures ip != "" && ip in old(recentServers) ==> prefs == old(prefs)[LastServerKey := ip]
      ensures ip != "" && ip !in old(recentServers) ==>
        prefs == old(prefs)[LastServerKey := ip][RecentServersKey := Join(recentServers, ';')]
      ensures prefs == SavedPrefs(old(prefs), old(recentServers), ip, maxRecentServers)
    {
      if ip == "" {
        return;
      }
      prefs := prefs[LastServerKey := ip];
      if ip !in recentServers {
        recentServers := [ip] + recentServers;
        if |recentServers| > maxRecentServers {
          recentServers := Take(recentServers, maxRecentServers);
        }
        SaveRecentServers();
      }
    }

    /** The stored last server, or the default address. */
    function GetLastServerIP(): (ip: string)
      reads this`prefs, this`defaultServerIP
      ensures LastServerKey !in prefs ==> ip == defaultServerIP
      ensures LastServerKey in prefs ==> ip == prefs[LastServerKey]
    {
      PrefString(prefs, LastServerKey, defaultServerIP)
    }

    /** A copy of the recent list. */
    method GetRecentServers() returns (copy: seq<string>)
      ensures copy == recentServers
    {
      copy := recentServers;
    }

    /** Forgets the last server and the recent list. */
    method ClearAllServers()
      modifies this`recentServers, this`prefs
      ensures recentServers == []
      ensures prefs == old(prefs) - {LastServerKey, RecentServersKey}
    {
      prefs := prefs - {LastServerKey, RecentServersKey};
      recentServers := [];
    }

    /** Removes the first occurrence of `ip`; the stored list is rewritten
    * only when something was removed. */
    method RemoveServer(ip: string)
      modifies this`recentServers, this`prefs
      ensures recentServers == RemoveFirst(old(recentServers), ip)
      ensures ip in old(recentServers) ==> prefs == old(prefs)[RecentServersKey := Join(recentServers, ';')]
      ensures ip !in old(recentServers) ==> prefs == old(prefs)
    {
      RemoveFirstMultiset(recentServers, ip);
      if ip in recentServers {
        recentServers := RemoveFirst(recentServers, ip);
        SaveRecentServers();
      }
    }

    /** Replaces the recent list with the stored one, when one is stored. */
    method LoadRecentServers()
      modifies this`recentServers
      ensures recentServers == Loaded(prefs, old(recentServers))
    {
      var saved := PrefString(prefs, RecentServersKey, "");
      if saved != "" {
        recentServers := Split(saved, ';');
      }
    }

    /** Stores the recent list joined with ';'. */
    method SaveRecentServers()
      modifies this`prefs
      ensures prefs == old(prefs)[RecentServersKey := Join(recentServers, ';')]
    {
      prefs := prefs[RecentServersKey := Join(recentServers, ';')];
    }
  }

  /** One part of a dotted quad: `int.TryParse` succeeds with 0..255. */
  predicate IsOctet(part: string) {
    var v := TryParseInt32(part);
    v.Some? && 0 <= v.value <= 255
  }

  /** The address rule: "localhost"; or, when the text splits into four
    * dot-separated parts, four octets; otherwise any text with a dot. */
  predicate ValidServerAddress(ip: string) {
    ip == "localhost" ||
    var parts := Split(ip, '.');
    if |parts| == 4 then forall k :: 0 <= k < 4 ==> IsOctet(parts[k]) else '.' in ip
  }

  /** The empty text is no address. */
  lemma NoEmptyAddress()
    ensures !ValidServerAddress("")
  {
    assert Split("", '.') == [""];
  }

  /** The loop over the parts of a dotted quad: true when every part is an
    * octet, false at the first part that is not. */
  method AllOctets(parts: seq<string>) returns (valid: bool)
    ensures valid <==> forall k :: 0 <= k < |parts| ==> IsOctet(parts[k])
  {
    var i := 0;
    while i < |parts|
      invariant 0 <= i <= |parts|
      invariant forall k :: 0 <= k < i ==> IsOctet(parts[k])
    {
      var value := TryParseInt32(parts[i]);
      if value.None? || value.value < 0 || value.value > 255 {
        return false;
      }
      i := i + 1;
    }
    return true;
  }

  /** `IsValidIP`: checks the parts of a dotted quad one by one and stops at
    * the first bad one. */
  method IsValidIP(ip: string) returns (valid: bool)
    ensures valid == ValidServerAddress(ip)
  {
    if ip == "" {
      NoEmptyAddress();
      return false;
    }
    if ip == "localhost" {
      return true;
    }
    var parts := Split(ip, '.');
    if |parts| == 4 {
      valid := AllOctets(parts);
      return;
    }
    return '.' in ip;
  }

  /** The text `a.b.c.d` of an IPv4 address. */
  function FormatIPv4(a: nat, b: nat, c: nat, d: nat): string {
    Join([NatToString(a), NatToString(b), NatToString(c), NatToString(d)], '.')
  }

  lemma DigitsHaveNoDot(n: nat)
    ensures '.' !in NatToString(n) && ':' !in NatToString(n) && ';' !in NatToString(n)
  {
  }

  lemma SplitFormatIPv4(a: nat, b: nat, c: nat, d: nat)
    ensures Split(FormatIPv4(a, b, c, d), '.') == [NatToString(a), NatToString(b), NatToString(c), NatToString(d)]
  {
    DigitsHaveNoDot(a);
    DigitsHaveNoDot(b);
    DigitsHaveNoDot(c);
    DigitsHaveNoDot(d);
    SplitJoin([NatToString(a), NatToString(b), NatToString(c), NatToString(d)], '.');
  }

  lemma ByteIsOctet(n: nat)
    requires n <= 255
    ensures IsOctet(NatToString(n))
  {
    ParseNatToString(n);
  }

  /** Every dotted quad of bytes is a valid address. */
  lemma DottedQuadValid(a: nat, b: nat, c: nat, d: nat)
    requires a <= 255 && b <= 255 && c <= 255 && d <= 255
    ensures ValidServerAddress(FormatIPv4(a, b, c, d))
  {
    var parts := Split(FormatIPv4(a, b, c, d), '.');
    SplitFormatIPv4(a, b, c, d);
    ByteIsOctet(a);
    ByteIsOctet(b);
    ByteIsOctet(c);
    ByteIsOctet(d);
    assert forall k :: 0 <= k < 4 ==> IsOctet(parts[k]);
  }

  /** A dotted quad with a part above 255 is rejected. */
  lemma DottedQuadOutOfRange(a: nat, b: nat, c: nat, d: nat)
    requires a > 255 && a <= Int32Max
    ensures !ValidServerAddress(FormatIPv4(a, b, c, d))
  {
    SplitFormatIPv4(a, b, c, d);
    ParseNatToString(a);
    var s := FormatIPv4(a, b, c, d);
    var first := NatToString(a);
    assert s == first + ['.'] + Join([NatToString(b), NatToString(c), NatToString(d)], '.');
    assert s[0] == first[0];
  }

  /** Every valid address other than "localhost" contains a dot. */
  lemma ValidHasDot(ip: string)
    requires ValidServerAddress(ip) && ip != "localhost"
    ensures '.' in ip
  {
    var parts := Split(ip, '.');
    if |parts| == 4 && '.' !in ip {
      SplitWithout(ip, '.');
    }
  }

  datatype ServerType = Unknown | Local | LAN | Cloud | Remote

  /** `GetServerType`, as written: every address starting with "172." counts
    * as a LAN address. */
  function GetServerType(ip: string): (t: ServerType)
    ensures t == Unknown <==> ip == ""
    ensures t == Local <==> ip == "localhost" || ip == "127.0.0.1"
    ensures t == LAN ==> StartsWith(ip, "192.168.") || StartsWith(ip, "10.") || StartsWith(ip, "172.")
    ensures t == Cloud ==> Contains(ip, "edgegap") || Contains(ip, "cloud")
  {
    if ip == "" then Unknown
    else if ip == "localhost" || ip == "127.0.0.1" then Local
    else if StartsWith(ip, "192.168.") || StartsWith(ip, "10.") || StartsWith(ip, "172.") then LAN
    else if Contains(ip, "edgegap") || Contains(ip, "cloud") then Cloud
    else Remote
  }

  /** The public address 172.234.24.224, the shipped default server, is
    * classified as a LAN address. */
  lemma PublicAddressCalledLan()
    ensures GetServerType("172.234.24.224") == LAN
  {
    assert StartsWith("172.234.24.224", "172.");
  }

  /** The second part of a dotted address lies in 16..31, the private block
    * 172.16.0.0/12 of RFC 1918. */
  predicate InPrivate172Block(ip: string) {
    var parts := Split(ip, '.');
    |parts| >= 2 && var v := TryParseInt32(parts[1]); v.Some? && 16 <= v.value <= 31
  }

  /** The classifier with the private 172 block of RFC 1918 in place of the
    * whole "172." prefix. */
  function ClassifyServer(ip: string): (t: ServerType)
    ensures t == Unknown <==> ip == ""
    ensures t == Local <==> ip == "localhost" || ip == "127.0.0.1"
    ensures t != LAN || t == GetServerType(ip)
  {
    if ip == "" then Unknown
    else if ip == "localhost" || ip == "127.0.0.1" then Local
    else if StartsWith(ip, "192.168.") || StartsWith(ip, "10.") || (StartsWith(ip, "172.") && InPrivate172Block(ip)) then LAN
    else if Contains(ip, "edgegap") || Contains(ip, "cloud") then Cloud
    else Remote
  }

  lemma Format172Prefix(b: nat, c: nat, d: nat)
    ensures StartsWith(FormatIPv4(172, b, c, d), "172.")
  {
    var tail := [NatToString(b), NatToString(c), NatToString(d)];
    assert [NatToString(172), NatToString(b), NatToString(c), NatToString(d)][1..] == tail;
    assert NatToString(172) == "172";
    assert FormatIPv4(172, b, c, d) == "172" + ['.'] + Join(tail, '.');
  }

  lemma Format172Block(b: nat, c: nat, d: nat)
    ensures InPrivate172Block(FormatIPv4(172, b, c, d)) <==> 16 <= b <= 31
  {
    var parts := Split(FormatIPv4(172, b, c, d), '.');
    SplitFormatIPv4(172, b, c, d);
    assert parts[1] == NatToString(b);
    ParseNatToString(b);
    var v := TryParseInt32(NatToString(b));
    assert v.Some? ==> v.value == b;
    assert b <= Int32Max ==> v == Some(b);
  }

  /** For a non-local address under "172." the corrected classifier says
    * LAN exactly for the private block. */
  lemma Classify172(ip: string)
    requires ip != "" && ip != "localhost" && ip != "127.0.0.1"
    requires !StartsWith(ip, "192.168.") && !StartsWith(ip, "10.") && StartsWith(ip, "172.")
    ensures ClassifyServer(ip) == LAN <==> InPrivate172Block(ip)
  {
  }

  /** An address 172.b.c.d is LAN exactly when b is in 16..31. */
  lemma ClassifyPrivate172(b: nat, c: nat, d: nat)
    ensures ClassifyServer(FormatIPv4(172, b, c, d)) == LAN <==> 16 <= b <= 31
  {
    var s := FormatIPv4(172, b, c, d);
    assert StartsWith(s, "172.") by {
      Format172Prefix(b, c, d);
    }
    assert s != "" && s != "localhost" && s != "127.0.0.1" && !StartsWith(s, "192.168.") && !StartsWith(s, "10.") by {
      Format172Prefix(b, c, d);
      assert s[..4] == "172.";
      assert s[1] == '7';
    }
    Classify172(s);
    Format172Block(b, c, d);
  }
}
