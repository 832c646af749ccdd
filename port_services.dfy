/** The port services table: which service of a type a port offers, when
  * it is open, and which pre-set bundle best covers a list of requested
  * services. Prices, durations and quality are left to the game's float
  * formulas and are not part of this model. */
module PortServices {
  import opened Wrappers
  import opened Numbers

  datatype ServiceType = Repair | Refuel | Trading | Upgrade | Storage | Crew | Mission
                       | Banking | Information | Customs

  datatype ServiceTier = Basic | Premium | Luxury | Emergency

  /** The availability part of a service definition. */
  datatype ServiceDefinition = ServiceDefinition(
    serviceType: ServiceType, serviceName: string, availableTier: ServiceTier,
    isAvailable: bool, hoursAvailable: int, minimumProsperityRequired: real)

  datatype ServiceBundle = ServiceBundle(bundleName: string, includedServices: seq<ServiceType>, discountPercentage: real)

  /** The minimum port security a service type needs. */
  function SecurityRequirement(t: ServiceType): (level: real)
    ensures 0.0 <= level < 1.0
    ensures level > 0.0 <==> t in {Banking, Upgrade, Trading}
  {
    match t
    case Banking => 0.7
    case Upgrade => 0.5
    case Trading => 0.3
    case _ => 0.0
  }

  /** Banking needs more security than upgrades, which need more than
    * trading, which needs more than any other service. */
  lemma SecurityOrder(other: ServiceType)
    requires other !in {Banking, Upgrade, Trading}
    ensures SecurityRequirement(Banking) > SecurityRequirement(Upgrade) > SecurityRequirement(Trading) > SecurityRequirement(other)
  {
  }

  /** The opening hour for a service open `hours` hours a day: half of them
    * (rounded toward zero) before noon. */
  function OpenHour(hours: int): int {
    12 - TruncDiv(hours, 2)
  }

  /** The closing hour as written: half of the hours (rounded toward zero)
    * after noon, so an odd count loses its last hour. */
  function CloseHour(hours: int): int {
    12 + TruncDiv(hours, 2)
  }

  /** The closing hour that gives the service all of its hours. */
  function CloseHourCorrected(hours: int): int {
    OpenHour(hours) + hours
  }

  /** The two closing hours agree exactly on even hour counts; on an odd
    * count the written window is one hour short. */
  lemma WindowLengths(hours: int)
    requires 1 <= hours < 24
    ensures CloseHourCorrected(hours) - OpenHour(hours) == hours
    ensures CloseHour(hours) - OpenHour(hours) == (if hours % 2 == 0 then hours else hours - 1)
    ensures 0 <= OpenHour(hours) <= 12 < CloseHourCorrected(hours) <= 24
  {
  }

  /** The number of hours `0 <= h < n` with `open <= h < close`. */
  function CountOpen(n: nat, open: int, close: int): (count: nat)
    ensures count <= n
  {
    if n == 0 then 0 else CountOpen(n - 1, open, close) + (if open <= n - 1 < close then 1 else 0)
  }

  lemma {:induction false} CountOpenIs(n: nat, open: int, close: int)
    requires 0 <= open <= close <= 24 && n <= 24
    ensures CountOpen(n, open, close) == if n <= open then 0 else if n <= close then n - open else close - open
  {
    if n > 0 {
      CountOpenIs(n - 1, open, close);
    }
  }

  datatype PortServicesConfiguration = PortServicesConfiguration(
    availableServices: seq<ServiceDefinition>, serviceBundles: seq<ServiceBundle>)
  {
    /** `GetService`: the first definition of the type, if any. */
    function GetService(t: ServiceType): (r: Option<ServiceDefinition>)
      ensures r.None? <==> forall i :: 0 <= i < |availableServices| ==> availableServices[i].serviceType != t
      ensures r.Some? ==> exists i :: FirstOfType(availableServices, t, i) && availableServices[i] == r.value
    {
      FirstOfTypeIn(availableServices, t)
    }

    /** `GetServicesByTier`: the available definitions of the tier, in
      * order. */
    function GetServicesByTier(tier: ServiceTier): (r: seq<ServiceDefinition>)
      ensures forall s :: s in r <==> s in availableServices && s.availableTier == tier && s.isAvailable
      ensures multiset(r) <= multiset(availableServices)
      ensures forall s :: multiset(r)[s] == if s.availableTier == tier && s.isAvailable then multiset(availableServices)[s] else 0
    {
      OfTier(availableServices, tier)
    }

    /** `IsServiceAvailable`: the service exists and is switched on, the
      * port is prosperous enough, the hour is inside the opening window
      * when the service is not open all day, and the port is secure
      * enough. As written it is never available when the corrected rule
      * refuses, and agrees with it on even hour counts. */
    predicate IsServiceAvailable(t: ServiceType, prosperityLevel: real, securityLevel: real, currentHour: int)
      ensures IsServiceAvailable(t, prosperityLevel, securityLevel, currentHour) ==>
        IsServiceAvailableCorrected(t, prosperityLevel, securityLevel, currentHour)
      ensures (IsServiceAvailableCorrected(t, prosperityLevel, securityLevel, currentHour) &&
               GetService(t).Some? && GetService(t).value.hoursAvailable % 2 == 0) ==>
        IsServiceAvailable(t, prosperityLevel, securityLevel, currentHour)
    {
      match GetService(t)
      case None => false
      case Some(service) =>
        service.isAvailable &&
        prosperityLevel >= service.minimumProsperityRequired &&
        (service.hoursAvailable < 24 ==> OpenHour(service.hoursAvailable) <= currentHour < CloseHour(service.hoursAvailable)) &&
        securityLevel >= SecurityRequirement(service.serviceType)
    }

    /** `IsServiceAvailable` with the opening window given its full
      * length. A service limited to fewer than 24 hours is open only at an
      * hour of the day, 0 to 23. */
    predicate IsServiceAvailableCorrected(t: ServiceType, prosperityLevel: real, securityLevel: real, currentHour: int)
      ensures (IsServiceAvailableCorrected(t, prosperityLevel, securityLevel, currentHour) &&
               GetService(t).Some? && GetService(t).value.hoursAvailable < 24) ==> 0 <= currentHour < 24
    {
      match GetService(t)
      case None => false
      case Some(service) =>
        service.isAvailable &&
        prosperityLevel >= service.minimumProsperityRequired &&
        (service.hoursAvailable < 24 ==> OpenHour(service.hoursAvailable) <= currentHour < CloseHourCorrected(service.hoursAvailable)) &&
        securityLevel >= SecurityRequirement(service.serviceType)
    }

    /** A missing or switched-off service is never available. */
    lemma UnavailableService(t: ServiceType, prosperityLevel: real, securityLevel: real, currentHour: int)
      requires GetService(t).None? || !GetService(t).value.isAvailable
      ensures !IsServiceAvailable(t, prosperityLevel, securityLevel, currentHour)
      ensures !IsServiceAvailableCorrected(t, prosperityLevel, securityLevel, currentHour)
    {
    }

    /** A service needs the security its type asks for, whatever else
      * holds. */
    lemma AvailableNeedsSecurity(t: ServiceType, prosperityLevel: real, securityLevel: real, currentHour: int)
      requires IsServiceAvailable(t, prosperityLevel, securityLevel, currentHour)
      ensures securityLevel >= SecurityRequirement(t)
    {
      var i :| FirstOfType(availableServices, t, i) && availableServices[i] == GetService(t).value;
    }

    /** Of the 24 hours of a day, an otherwise available service with fewer
      * than 24 hours is open during `hours` rounded down to even, as
      * written, and during all `hours` when corrected. */
    lemma OpenHoursPerDay(t: ServiceType)
      requires GetService(t).Some? && 1 <= GetService(t).value.hoursAvailable < 24
      ensures var h := GetService(t).value.hoursAvailable;
        CountOpen(24, OpenHour(h), CloseHour(h)) == (if h % 2 == 0 then h else h - 1) &&
        CountOpen(24, OpenHour(h), CloseHourCorrected(h)) == h
    {
      var h := GetService(t).value.hoursAvailable;
      WindowLengths(h);
      CountOpenIs(24, OpenHour(h), CloseHour(h));
      CountOpenIs(24, OpenHour(h), CloseHourCorrected(h));
    }

    /** `FindBundleForServices`: the loop keeps the first bundle reaching a
      * strictly higher match count that also covers at least 70% of the
      * request. */
    method FindBundleForServices(requestedServices: seq<ServiceType>) returns (bestBundle: Option<ServiceBundle>)
      ensures bestBundle == BestBundle(serviceBundles, requestedServices).bundle
    {
      bestBundle := None;
      var bestMatch := 0;
      var i := 0;
      while i < |serviceBundles|
        invariant 0 <= i <= |serviceBundles|
        invariant bestBundle == BestBundle(serviceBundles[..i], requestedServices).bundle
        invariant bestMatch == BestBundle(serviceBundles[..i], requestedServices).matches
      {
        var bundle := serviceBundles[i];
        var matchCount := CountMatches(bundle.includedServices, requestedServices);
        if matchCount > bestMatch && 10 * matchCount >= 7 * |requestedServices| {
          bestMatch := matchCount;
          bestBundle := Some(bundle);
        }
        assert serviceBundles[..i + 1][..i] == serviceBundles[..i];
        i := i + 1;
      }
      assert serviceBundles[..i] == serviceBundles;
    }
  }

  /** The inner loop of `FindBundleForServices`: how many requested
    * services the bundle includes. */
  method CountMatches(included: seq<ServiceType>, requested: seq<ServiceType>) returns (matchCount: nat)
    ensures matchCount == MatchCount(included, requested)
  {
    matchCount := 0;
    var k := 0;
    while k < |requested|
      invariant 0 <= k <= |requested|
      invariant matchCount == MatchCount(included, requested[..k])
    {
      if requested[k] in included {
        matchCount := matchCount + 1;
      }
      assert requested[..k + 1][..k] == requested[..k];
      k := k + 1;
    }
    assert requested[..k] == requested;
  }

  /** `services[i]` is the first definition of type `t`. */
  predicate FirstOfType(services: seq<ServiceDefinition>, t: ServiceType, i: int) {
    0 <= i < |services| && services[i].serviceType == t &&
    forall j :: 0 <= j < i ==> services[j].serviceType != t
  }

  /** `List.Find` on the service type. */
  function FirstOfTypeIn(services: seq<ServiceDefinition>, t: ServiceType): (r: Option<ServiceDefinition>)
    ensures r.None? <==> forall i :: 0 <= i < |services| ==> services[i].serviceType != t
    ensures r.Some? ==> exists i :: FirstOfType(services, t, i) && services[i] == r.value
  {
    if services == [] then None
    else if services[0].serviceType == t then
      assert FirstOfType(services, t, 0);
      Some(services[0])
    else
      var r := FirstOfTypeIn(services[1..], t);
      assert r.Some? ==> exists i :: FirstOfType(services, t, i) && services[i] == r.value by {
        if r.Some? {
          var i :| FirstOfType(services[1..], t, i) && services[1..][i] == r.value;
          assert FirstOfType(services, t, i + 1);
        }
      }
      r
  }

  /** `List.FindAll` on tier and availability. */
  function OfTier(services: seq<ServiceDefinition>, tier: ServiceTier): (r: seq<ServiceDefinition>)
    ensures forall s :: s in r <==> s in services && s.availableTier == tier && s.isAvailable
    ensures multiset(r) <= multiset(services)
    ensures forall s :: multiset(r)[s] == if s.availableTier == tier && s.isAvailable then multiset(services)[s] else 0
  {
    if services == [] then []
    else
      var rest := OfTier(services[..|services| - 1], tier);
      var last := services[|services| - 1];
      assert services == services[..|services| - 1] + [last];
      if last.availableTier == tier && last.isAvailable then rest + [last] else rest
  }

  /** How many of the requested entries (counting repeats) the bundle
    * includes. */
  function MatchCount(included: seq<ServiceType>, requested: seq<ServiceType>): (count: nat)
    ensures count <= |requested|
  {
    if requested == [] then 0
    else MatchCount(included, requested[..|requested| - 1]) + (if requested[|requested| - 1] in included then 1 else 0)
  }

  /** A bundle can be chosen: it matches something and covers at least 70%
    * of the request. */
  predicate Qualifies(b: ServiceBundle, requested: seq<ServiceType>) {
    var m := MatchCount(b.includedServices, requested);
    m > 0 && 10 * m >= 7 * |requested|
  }

  datatype Choice = Choice(bundle: Option<ServiceBundle>, index: int, matches: nat)

  /** The choice after scanning `bundles` in order, keeping a bundle when it
    * covers at least 70% of the request and beats the best match so far. */
  function BestBundle(bundles: seq<ServiceBundle>, requested: seq<ServiceType>): (c: Choice)
    ensures c.bundle.None? ==> c.matches == 0
    ensures c.bundle.Some? ==>
      0 <= c.index < |bundles| && bundles[c.index] == c.bundle.value &&
      c.matches == MatchCount(c.bundle.value.includedServices, requested)
  {
    if bundles == [] then Choice(None, -1, 0)
    else
      var prefix := bundles[..|bundles| - 1];
      var c := BestBundle(prefix, requested);
      var last := bundles[|bundles| - 1];
      var m := MatchCount(last.includedServices, requested);
      if m > c.matches && 10 * m >= 7 * |requested| then Choice(Some(last), |bundles| - 1, m) else c
  }

  /** The scan finds nothing exactly when no bundle qualifies; otherwise it
    * finds a qualifying bundle with the highest match count, the earliest
    * of those. */
  lemma {:induction false} BestBundleIsBest(bundles: seq<ServiceBundle>, requested: seq<ServiceType>)
    ensures var c := BestBundle(bundles, requested);
      c.bundle.None? <==> forall i :: 0 <= i < |bundles| ==> !Qualifies(bundles[i], requested)
    ensures var c := BestBundle(bundles, requested);
      c.bundle.Some? ==>
        Qualifies(c.bundle.value, requested) &&
        (forall j :: 0 <= j < |bundles| && Qualifies(bundles[j], requested) ==>
          MatchCount(bundles[j].includedServices, requested) <= c.matches) &&
        (forall j :: 0 <= j < c.index && Qualifies(bundles[j], requested) ==>
          MatchCount(bundles[j].includedServices, requested) < c.matches)
  {
    if bundles != [] {
      var prefix := bundles[..|bundles| - 1];
      BestBundleIsBest(prefix, requested);
      assert forall j :: 0 <= j < |prefix| ==> bundles[j] == prefix[j];
    }
  }

  /** A service open one hour a day, as written, is closed at every hour:
    * its window is `[12, 12)`. */
  lemma OneHourServiceNeverOpen(currentHour: int)
    ensures var oneHour := ServiceDefinition(Repair, "Repair Service", Basic, true, 1, 0.0);
      var config := PortServicesConfiguration([oneHour], []);
      !config.IsServiceAvailable(Repair, 1.0, 1.0, currentHour)
  {
  }

  /** Corrected, the same service is open from noon to one. */
  lemma OneHourServiceOpenAtNoon()
    ensures var oneHour := ServiceDefinition(Repair, "Repair Service", Basic, true, 1, 0.0);
      var config := PortServicesConfiguration([oneHour], []);
      config.IsServiceAvailableCorrected(Repair, 1.0, 1.0, 12) && !config.IsServiceAvailableCorrected(Repair, 1.0, 1.0, 13)
  {
  }
}
