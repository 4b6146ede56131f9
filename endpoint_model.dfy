/**
 * The gateway configuration that endpointSearch.py walks, and what the walk finds:
 * for each gateway, the URL path maps (map -> path rule -> path), then the HTTP
 * listeners, then the request routing rules, each producing match records in loop
 * order. The scan over subscriptions and gateways, with its two failure paths (a
 * subscription whose listing fails is skipped; a gateway id that is missing or has
 * fewer than five '/'-separated segments raises and ends the run), is stated as ScanOutcome values.
 */
module EndpointModel {
  import opened Wrappers
  import opened Strings

  // ---------------------------------------------------------------------------
  // Configuration snapshot, as the network SDK returns it (nullable collections
  // and names are Options)
  // ---------------------------------------------------------------------------

  /** A reference to another configuration object, by resource id. */
  datatype SubResource = SubResource(id: string)

  datatype PathRule = PathRule(name: Option<string>, paths: Option<seq<string>>)

  datatype PathMap = PathMap(name: Option<string>, pathRules: Option<seq<PathRule>>)

  datatype Listener = Listener(name: Option<string>, hostName: Option<string>)

  datatype RoutingRule = RoutingRule(
    name: Option<string>,
    ruleType: Option<string>,
    redirectConfiguration: Option<SubResource>,
    urlPathMap: Option<SubResource>)

  datatype Gateway = Gateway(
    id: Option<string>,
    name: string,
    urlPathMaps: Option<seq<PathMap>>,
    httpListeners: Option<seq<Listener>>,
    requestRoutingRules: Option<seq<RoutingRule>>)

  /** What listing a subscription's gateways gave: the gateways, or an exception. */
  datatype Listing = Listed(gateways: seq<Gateway>) | ListingFailed

  datatype Subscription = Subscription(subscriptionId: string, displayName: string, listing: Listing)

  // ---------------------------------------------------------------------------
  // Match records: what each printed block reports
  // ---------------------------------------------------------------------------

  /** The gateway-level lines every printed block carries. */
  datatype Site = Site(
    subscriptionId: string,
    subscriptionName: string,
    gatewayName: string,
    resourceGroup: string,
    portalLink: string)

  /** Where in the gateway the endpoint was found, with the fields the block prints. */
  datatype Location =
    | InPath(pathMap: Option<string>, pathRule: Option<string>, path: string)
    | InListener(listener: Option<string>, hostName: Option<string>)
    | InBasicRule(rule: Option<string>)
    | InRedirect(rule: Option<string>, redirectId: string)
    | InUrlPathMap(rule: Option<string>, urlPathMapId: string)

  datatype Match = Match(site: Site, location: Location)

  /** The order of the three walks within one gateway. */
  function Rank(l: Location): nat {
    match l
    case InPath(_, _, _) => 0
    case InListener(_, _) => 1
    case _ => 2
  }

  predicate IsRuleLocation(l: Location) {
    l.InBasicRule? || l.InRedirect? || l.InUrlPathMap?
  }

  // ---------------------------------------------------------------------------
  // Resource group and portal link
  // ---------------------------------------------------------------------------

  /** `id.split("/")[4]`; None where the index would be out of range. */
  function ResourceGroupOf(id: string): (rg: Option<string>)
  {
    var parts := Split(id, '/');
    if |parts| > 4 then Some(parts[4]) else None
  }

  /**
   * The resource group exists exactly when the id holds at least four '/' (five
   * segments), and it is a single segment.
   */
  lemma ResourceGroupOfDefined(id: string)
    ensures ResourceGroupOf(id).Some? <==> multiset(id)['/'] >= 4
    ensures ResourceGroupOf(id).Some? ==> '/' !in ResourceGroupOf(id).value
  {
    SplitCount(id, '/');
  }

  const PortalPrefix: string := "https://portal.azure.com/#@/resource"

  /** The fully qualified id of an application gateway. */
  function GatewayResourceId(subscriptionId: string, resourceGroup: string, name: string): string {
    "/subscriptions/" + subscriptionId + "/resourceGroups/" + resourceGroup
      + "/" + "providers/Microsoft.Network/applicationGateways/" + name
  }

  /**
   * The portal deep link printed with every match: the fixed template with the
   * subscription id, the resource group and the gateway name filled in.
   */
  function PortalLink(subscriptionId: string, resourceGroup: string, name: string): string {
    PortalPrefix + GatewayResourceId(subscriptionId, resourceGroup, name)
  }

  lemma GatewayResourceIdPieces(subscriptionId: string, resourceGroup: string, name: string)
    ensures GatewayResourceId(subscriptionId, resourceGroup, name)
      == [] + ['/'] + ("subscriptions" + ['/'] + (subscriptionId + ['/'] + ("resourceGroups" + ['/']
           + (resourceGroup + ['/'] + ("providers/Microsoft.Network/applicationGateways/" + name)))))
  {
    IdPieces(subscriptionId, resourceGroup, "providers/Microsoft.Network/applicationGateways/" + name);
  }

  /**
   * The `/`-separated pieces of the first part of a resource id. Here and in
   * GatewayResourceIdPieces and FifthPiece the id is grouped piece by piece, each piece
   * followed by `['/']`, so that SplitAfterPiece can cut one piece at a time.
   */
  lemma IdPieces(a: string, b: string, tail: string)
    ensures "/subscriptions/" + a + "/resourceGroups/" + b + "/" + tail
      == [] + ['/'] + ("subscriptions" + ['/'] + (a + ['/'] + ("resourceGroups" + ['/'] + (b + ['/'] + tail))))
  {
    var s4 := b + ['/'] + tail;
    var s2 := a + ['/'] + ("resourceGroups" + ['/'] + s4);
    assert s2 == a + "/resourceGroups/" + s4;
    assert [] + ['/'] + ("subscriptions" + ['/'] + s2) == "/subscriptions/" + s2;
  }

  lemma {:induction false} FifthPiece(a: string, b: string, tail: string)
    requires '/' !in a && '/' !in b
    ensures var parts := Split([] + ['/'] + ("subscriptions" + ['/'] + (a + ['/'] + ("resourceGroups" + ['/']
                                  + (b + ['/'] + tail)))), '/');
            |parts| > 4 && parts[4] == b
  {
    var s4 := b + ['/'] + tail;
    var s3 := "resourceGroups" + ['/'] + s4;
    var s2 := a + ['/'] + s3;
    var s1 := "subscriptions" + ['/'] + s2;
    SplitAfterPiece([], '/', s1);
    SplitAfterPiece("subscriptions", '/', s2);
    SplitAfterPiece(a, '/', s3);
    SplitAfterPiece("resourceGroups", '/', s4);
    SplitAfterPiece(b, '/', tail);
  }

  /** For a well-formed gateway id the resource group is its fifth segment. */
  lemma ResourceGroupOfCanonicalId(subscriptionId: string, resourceGroup: string, name: string)
    requires '/' !in subscriptionId && '/' !in resourceGroup
    ensures ResourceGroupOf(GatewayResourceId(subscriptionId, resourceGroup, name)) == Some(resourceGroup)
  {
    GatewayResourceIdPieces(subscriptionId, resourceGroup, name);
    FifthPiece(subscriptionId, resourceGroup, "providers/Microsoft.Network/applicationGateways/" + name);
  }

  /**
   * The resource group of a gateway: None when its id is missing (`None.split` raises
   * AttributeError) or has no fifth segment (`[4]` raises IndexError).
   */
  function GatewayResourceGroup(gw: Gateway): Option<string> {
    match gw.id
    case None => None
    case Some(id) => ResourceGroupOf(id)
  }

  /** A gateway has a resource group exactly when it has an id holding at least four '/'. */
  lemma GatewayResourceGroupDefined(gw: Gateway)
    ensures GatewayResourceGroup(gw).Some? <==> gw.id.Some? && multiset(gw.id.value)['/'] >= 4
  {
    if gw.id.Some? {
      ResourceGroupOfDefined(gw.id.value);
    }
  }

  /**
   * When a gateway's id is the canonical id under the subscription being scanned,
   * the printed portal link points at exactly that resource.
   */
  lemma PortalLinkAddressesGateway(subscriptionId: string, resourceGroup: string, gw: Gateway)
    requires '/' !in subscriptionId && '/' !in resourceGroup
    requires gw.id == Some(GatewayResourceId(subscriptionId, resourceGroup, gw.name))
    ensures GatewayResourceGroup(gw) == Some(resourceGroup)
    ensures PortalLink(subscriptionId, GatewayResourceGroup(gw).value, gw.name) == PortalPrefix + gw.id.value
  {
    ResourceGroupOfCanonicalId(subscriptionId, resourceGroup, gw.name);
  }

  function SiteOf(sub: Subscription, gw: Gateway, resourceGroup: string): Site {
    Site(sub.subscriptionId, sub.displayName, gw.name, resourceGroup,
         PortalLink(sub.subscriptionId, resourceGroup, gw.name))
  }

  // ---------------------------------------------------------------------------
  // Walk 1: url path maps -> path rules -> paths
  // ---------------------------------------------------------------------------

  /** The records of the innermost loop over one path rule's paths. */
  function PathHits(site: Site, mapName: Option<string>, ruleName: Option<string>, paths: seq<string>, endpoint: string): (r: seq<Match>)
    decreases |paths|
  {
    if paths == [] then []
    else
      var n := |paths| - 1;
      PathHits(site, mapName, ruleName, paths[..n], endpoint)
        + (if Contains(paths[n], endpoint) then [Match(site, InPath(mapName, ruleName, paths[n]))] else [])
  }

  /** The records of the middle loop over one path map's path rules. */
  function PathRuleHits(site: Site, mapName: Option<string>, rules: seq<PathRule>, endpoint: string): (r: seq<Match>)
    decreases |rules|
  {
    if rules == [] then []
    else
      var n := |rules| - 1;
      PathRuleHits(site, mapName, rules[..n], endpoint)
        + PathHits(site, mapName, rules[n].name, OrEmpty(rules[n].paths), endpoint)
  }

  /** The records of the outer loop over the gateway's url path maps. */
  function PathMapHits(site: Site, maps: seq<PathMap>, endpoint: string): (r: seq<Match>)
    decreases |maps|
  {
    if maps == [] then []
    else
      var n := |maps| - 1;
      PathMapHits(site, maps[..n], endpoint)
        + PathRuleHits(site, maps[n].name, OrEmpty(maps[n].pathRules), endpoint)
  }

  // ---------------------------------------------------------------------------
  // Walk 2: HTTP listeners
  // ---------------------------------------------------------------------------

  /** The listener condition: a truthy host name or a truthy name containing the endpoint. */
  predicate ListenerMatches(l: Listener, endpoint: string) {
    (Truthy(l.hostName) && Contains(l.hostName.value, endpoint))
    || (Truthy(l.name) && Contains(l.name.value, endpoint))
  }

  function ListenerRecord(site: Site, l: Listener): Match {
    Match(site, InListener(l.name, l.hostName))
  }

  function ListenerHits(site: Site, listeners: seq<Listener>, endpoint: string): (r: seq<Match>)
    decreases |listeners|
  {
    if listeners == [] then []
    else
      var n := |listeners| - 1;
      ListenerHits(site, listeners[..n], endpoint)
        + (if ListenerMatches(listeners[n], endpoint) then [ListenerRecord(site, listeners[n])] else [])
  }

  // ---------------------------------------------------------------------------
  // Walk 3: request routing rules
  // ---------------------------------------------------------------------------

  predicate IsBasic(rule: RoutingRule) {
    rule.ruleType == Some("Basic")
  }

  /** The name check, applied to Basic rules only. */
  predicate BasicNameMatches(rule: RoutingRule, endpoint: string) {
    IsBasic(rule) && Truthy(rule.name) && Contains(rule.name.value, endpoint)
  }

  predicate RefMatches(ref: Option<SubResource>, endpoint: string) {
    ref.Some? && Contains(ref.value.id, endpoint)
  }

  /** The up to three records one rule contributes: name, redirect, url path map. */
  function RuleHits(site: Site, rule: RoutingRule, endpoint: string): (r: seq<Match>)
  {
    (if BasicNameMatches(rule, endpoint) then [Match(site, InBasicRule(rule.name))] else [])
    + (if RefMatches(rule.redirectConfiguration, endpoint)
       then [Match(site, InRedirect(rule.name, rule.redirectConfiguration.value.id))] else [])
    + (if RefMatches(rule.urlPathMap, endpoint)
       then [Match(site, InUrlPathMap(rule.name, rule.urlPathMap.value.id))] else [])
  }

  function RoutingRuleHits(site: Site, rules: seq<RoutingRule>, endpoint: string): (r: seq<Match>)
    decreases |rules|
  {
    if rules == [] then []
    else
      var n := |rules| - 1;
      RoutingRuleHits(site, rules[..n], endpoint) + RuleHits(site, rules[n], endpoint)
  }

  // ---------------------------------------------------------------------------
  // One gateway
  // ---------------------------------------------------------------------------

  /** Everything one gateway contributes, absent collections read as empty. */
  function GatewayHits(site: Site, gw: Gateway, endpoint: string): (r: seq<Match>)
  {
    PathMapHits(site, OrEmpty(gw.urlPathMaps), endpoint)
      + ListenerHits(site, OrEmpty(gw.httpListeners), endpoint)
      + RoutingRuleHits(site, OrEmpty(gw.requestRoutingRules), endpoint)
  }

  // ---------------------------------------------------------------------------
  // The scan over subscriptions and gateways
  // ---------------------------------------------------------------------------

  /**
   * The result of a run: it either finishes with the records printed, or stops at a
   * gateway whose id is missing or has no fifth segment, after the records printed
   * before it.
   */
  datatype ScanOutcome = Completed(matches: seq<Match>) | Aborted(matches: seq<Match>, badId: Option<string>)

  /** Running one part of the scan after another. */
  function Then(a: ScanOutcome, b: ScanOutcome): (r: ScanOutcome)
    ensures a.Aborted? ==> r == a
    ensures a.Completed? ==> r.matches == a.matches + b.matches && r.Aborted? == b.Aborted?
  {
    match a
    case Aborted(_, _) => a
    case Completed(m) =>
      match b
      case Completed(m') => Completed(m + m')
      case Aborted(m', id) => Aborted(m + m', id)
  }

  /** One gateway: work out its resource group, then run the three walks. */
  function GatewayScan(sub: Subscription, gw: Gateway, endpoint: string): ScanOutcome {
    match GatewayResourceGroup(gw)
    case None => Aborted([], gw.id)
    case Some(rg) => Completed(GatewayHits(SiteOf(sub, gw, rg), gw, endpoint))
  }

  /** The gateways of one subscription, in listing order. */
  function GatewaysScan(sub: Subscription, gws: seq<Gateway>, endpoint: string): ScanOutcome
    decreases |gws|
  {
    if gws == [] then Completed([])
    else
      var n := |gws| - 1;
      Then(GatewaysScan(sub, gws[..n], endpoint), GatewayScan(sub, gws[n], endpoint))
  }

  /** One subscription: nothing when its listing failed. */
  function SubscriptionScan(sub: Subscription, endpoint: string): ScanOutcome {
    match sub.listing
    case ListingFailed => Completed([])
    case Listed(gws) => GatewaysScan(sub, gws, endpoint)
  }

  /** The whole tenant, subscriptions in the order they are listed. */
  function TenantScan(subs: seq<Subscription>, endpoint: string): ScanOutcome
    decreases |subs|
  {
    if subs == [] then Completed([])
    else
      var n := |subs| - 1;
      Then(TenantScan(subs[..n], endpoint), SubscriptionScan(subs[n], endpoint))
  }

  /** The closing message is printed exactly when the scan finished without any record. */
  predicate ReportsNotFound(outcome: ScanOutcome) {
    outcome.Completed? && outcome.matches == []
  }

  // ---------------------------------------------------------------------------
  // Properties
  // ---------------------------------------------------------------------------

  lemma ThenAssociative(a: ScanOutcome, b: ScanOutcome, c: ScanOutcome)
    ensures Then(Then(a, b), c) == Then(a, Then(b, c))
  {
  }

  /**
   * Every record of the path walk names this gateway, this path map and this path
   * rule, and carries one of the rule's paths that contains the endpoint.
   */
  lemma {:induction false} PathHitsShape(site: Site, mapName: Option<string>, ruleName: Option<string>, paths: seq<string>, endpoint: string)
    ensures |PathHits(site, mapName, ruleName, paths, endpoint)| <= |paths|
    ensures forall m :: m in PathHits(site, mapName, ruleName, paths, endpoint) ==>
      m.site == site && m.location.InPath? && m.location.pathMap == mapName
      && m.location.pathRule == ruleName && m.location.path in paths && Contains(m.location.path, endpoint)
    decreases |paths|
  {
    if paths != [] {
      var n := |paths| - 1;
      PathHitsShape(site, mapName, ruleName, paths[..n], endpoint);
      assert forall p :: p in paths[..n] ==> p in paths;
    }
  }

  lemma {:induction false} PathRuleHitsShape(site: Site, mapName: Option<string>, rules: seq<PathRule>, endpoint: string)
    ensures forall m :: m in PathRuleHits(site, mapName, rules, endpoint) ==>
      m.site == site && m.location.InPath? && m.location.pathMap == mapName
    decreases |rules|
  {
    if rules != [] {
      var n := |rules| - 1;
      PathRuleHitsShape(site, mapName, rules[..n], endpoint);
      PathHitsShape(site, mapName, rules[n].name, OrEmpty(rules[n].paths), endpoint);
    }
  }

  lemma {:induction false} PathMapHitsShape(site: Site, maps: seq<PathMap>, endpoint: string)
    ensures forall m :: m in PathMapHits(site, maps, endpoint) ==> m.site == site && m.location.InPath?
    decreases |maps|
  {
    if maps != [] {
      var n := |maps| - 1;
      PathMapHitsShape(site, maps[..n], endpoint);
      PathRuleHitsShape(site, maps[n].name, OrEmpty(maps[n].pathRules), endpoint);
    }
  }

  lemma {:induction false} ListenerHitsShape(site: Site, listeners: seq<Listener>, endpoint: string)
    ensures |ListenerHits(site, listeners, endpoint)| <= |listeners|
    ensures forall m :: m in ListenerHits(site, listeners, endpoint) ==> m.site == site && m.location.InListener?
    decreases |listeners|
  {
    if listeners != [] {
      ListenerHitsShape(site, listeners[..|listeners| - 1], endpoint);
    }
  }

  /**
   * One rule: a name record exactly for a Basic rule whose truthy name contains the
   * endpoint; a redirect record exactly when the redirect configuration is present
   * and its id contains the endpoint; a url-path-map record likewise. At most three.
   */
  lemma RuleHitsByKind(site: Site, rule: RoutingRule, endpoint: string)
    ensures |RuleHits(site, rule, endpoint)| <= 3
    ensures forall m :: m in RuleHits(site, rule, endpoint) ==> m.site == site && IsRuleLocation(m.location)
    ensures Match(site, InBasicRule(rule.name)) in RuleHits(site, rule, endpoint) <==> BasicNameMatches(rule, endpoint)
    ensures (exists m :: m in RuleHits(site, rule, endpoint) && m.location.InBasicRule?) <==> BasicNameMatches(rule, endpoint)
    ensures (exists m :: m in RuleHits(site, rule, endpoint) && m.location.InRedirect?)
            <==> RefMatches(rule.redirectConfiguration, endpoint)
    ensures RefMatches(rule.redirectConfiguration, endpoint)
            ==> Match(site, InRedirect(rule.name, rule.redirectConfiguration.value.id)) in RuleHits(site, rule, endpoint)
    ensures (exists m :: m in RuleHits(site, rule, endpoint) && m.location.InUrlPathMap?)
            <==> RefMatches(rule.urlPathMap, endpoint)
    ensures RefMatches(rule.urlPathMap, endpoint)
            ==> Match(site, InUrlPathMap(rule.name, rule.urlPathMap.value.id)) in RuleHits(site, rule, endpoint)
  {
  }

  lemma {:induction false} RoutingRuleHitsShape(site: Site, rules: seq<RoutingRule>, endpoint: string)
    ensures |RoutingRuleHits(site, rules, endpoint)| <= 3 * |rules|
    ensures forall m :: m in RoutingRuleHits(site, rules, endpoint) ==> m.site == site && IsRuleLocation(m.location)
    decreases |rules|
  {
    if rules != [] {
      var n := |rules| - 1;
      RoutingRuleHitsShape(site, rules[..n], endpoint);
      RuleHitsByKind(site, rules[n], endpoint);
    }
  }

  /**
   * Within one gateway every record names that gateway, and the path-map records
   * come first, then the listener records, then the routing-rule records.
   */
  lemma GatewayHitsOrdered(site: Site, gw: Gateway, endpoint: string)
    ensures forall m :: m in GatewayHits(site, gw, endpoint) ==> m.site == site
    ensures forall i, j :: 0 <= i <= j < |GatewayHits(site, gw, endpoint)| ==>
      Rank(GatewayHits(site, gw, endpoint)[i].location) <= Rank(GatewayHits(site, gw, endpoint)[j].location)
  {
    var p := PathMapHits(site, OrEmpty(gw.urlPathMaps), endpoint);
    var l := ListenerHits(site, OrEmpty(gw.httpListeners), endpoint);
    var q := RoutingRuleHits(site, OrEmpty(gw.requestRoutingRules), endpoint);
    PathMapHitsShape(site, OrEmpty(gw.urlPathMaps), endpoint);
    ListenerHitsShape(site, OrEmpty(gw.httpListeners), endpoint);
    RoutingRuleHitsShape(site, OrEmpty(gw.requestRoutingRules), endpoint);
    RankedConcat(p, l, q);
  }

  /** Records of rank 0, then of rank 1, then of rank 2 are ordered by rank. */
  lemma RankedConcat(p: seq<Match>, l: seq<Match>, q: seq<Match>)
    requires forall m :: m in p ==> m.location.InPath?
    requires forall m :: m in l ==> m.location.InListener?
    requires forall m :: m in q ==> IsRuleLocation(m.location)
    ensures forall i, j :: 0 <= i <= j < |p + l + q| ==> Rank((p + l + q)[i].location) <= Rank((p + l + q)[j].location)
  {
    var r := p + l + q;
    forall k | 0 <= k < |r|
      ensures Rank(r[k].location) == if k < |p| then 0 else if k < |p| + |l| then 1 else 2
    {
      if k < |p| {
        assert r[k] == p[k] && p[k] in p;
      } else if k < |p| + |l| {
        assert r[k] == l[k - |p|] && l[k - |p|] in l;
      } else {
        assert r[k] == q[k - |p| - |l|] && q[k - |p| - |l|] in q;
      }
    }
  }

  /** Each path containing the endpoint yields one record, in the order of the paths. */
  lemma {:induction false} PathHitsAppend(site: Site, mapName: Option<string>, ruleName: Option<string>,
                                          a: seq<string>, b: seq<string>, endpoint: string)
    ensures PathHits(site, mapName, ruleName, a + b, endpoint)
            == PathHits(site, mapName, ruleName, a, endpoint) + PathHits(site, mapName, ruleName, b, endpoint)
    decreases |b|
  {
    if b != [] {
      var n := |b| - 1;
      assert (a + b)[..|a| + n] == a + b[..n];
      PathHitsAppend(site, mapName, ruleName, a, b[..n], endpoint);
    } else {
      assert a + b == a;
    }
  }

  /** Paths have no truthiness test: an empty endpoint yields a record for every path, empty ones included. */
  lemma {:induction false} EmptyEndpointMatchesEveryPath(site: Site, mapName: Option<string>, ruleName: Option<string>, paths: seq<string>)
    ensures |PathHits(site, mapName, ruleName, paths, "")| == |paths|
    decreases |paths|
  {
    if paths != [] {
      var n := |paths| - 1;
      EmptyOccursEverywhere(paths[n]);
      EmptyEndpointMatchesEveryPath(site, mapName, ruleName, paths[..n]);
    }
  }

  /**
   * The record of a single path: a path in the middle of a rule's list contributes one
   * record, naming the path map, the path rule and the path, exactly when the endpoint
   * occurs in it, and it sits between the records of the paths before and after it.
   */
  lemma PathRecordInPlace(site: Site, mapName: Option<string>, ruleName: Option<string>,
                          before: seq<string>, path: string, after: seq<string>, endpoint: string)
    ensures PathHits(site, mapName, ruleName, before + [path] + after, endpoint)
            == PathHits(site, mapName, ruleName, before, endpoint)
               + (if Contains(path, endpoint) then [Match(site, InPath(mapName, ruleName, path))] else [])
               + PathHits(site, mapName, ruleName, after, endpoint)
  {
    PathHitsAppend(site, mapName, ruleName, before + [path], after, endpoint);
    PathHitsAppend(site, mapName, ruleName, before, [path], endpoint);
    assert [path][..0] == [];
  }

  lemma {:induction false} PathRuleHitsAppend(site: Site, mapName: Option<string>, a: seq<PathRule>, b: seq<PathRule>, endpoint: string)
    ensures PathRuleHits(site, mapName, a + b, endpoint)
            == PathRuleHits(site, mapName, a, endpoint) + PathRuleHits(site, mapName, b, endpoint)
    decreases |b|
  {
    if b != [] {
      var n := |b| - 1;
      assert (a + b)[..|a| + n] == a + b[..n];
      PathRuleHitsAppend(site, mapName, a, b[..n], endpoint);
    } else {
      assert a + b == a;
    }
  }

  /** Path maps are walked in order: the records of a list of maps are those of each map in turn. */
  lemma {:induction false} PathMapHitsAppend(site: Site, a: seq<PathMap>, b: seq<PathMap>, endpoint: string)
    ensures PathMapHits(site, a + b, endpoint) == PathMapHits(site, a, endpoint) + PathMapHits(site, b, endpoint)
    decreases |b|
  {
    if b != [] {
      var n := |b| - 1;
      assert (a + b)[..|a| + n] == a + b[..n];
      PathMapHitsAppend(site, a, b[..n], endpoint);
    } else {
      assert a + b == a;
    }
  }

  /**
   * Listeners: a record is produced for exactly the listeners satisfying the condition,
   * at most one each, and every record names its listener and host name.
   */
  lemma {:induction false} ListenerHitsExact(site: Site, listeners: seq<Listener>, endpoint: string, m: Match)
    ensures m in ListenerHits(site, listeners, endpoint)
            <==> exists i :: 0 <= i < |listeners| && ListenerMatches(listeners[i], endpoint)
                             && m == ListenerRecord(site, listeners[i])
    decreases |listeners|
  {
    if listeners != [] {
      var n := |listeners| - 1;
      ListenerHitsExact(site, listeners[..n], endpoint, m);
      if m in ListenerHits(site, listeners, endpoint) && m !in ListenerHits(site, listeners[..n], endpoint) {
        assert ListenerMatches(listeners[n], endpoint) && m == ListenerRecord(site, listeners[n]);
      }
      if exists i :: 0 <= i < |listeners| && ListenerMatches(listeners[i], endpoint)
                     && m == ListenerRecord(site, listeners[i]) {
        var i :| 0 <= i < |listeners| && ListenerMatches(listeners[i], endpoint)
                 && m == ListenerRecord(site, listeners[i]);
        if i < n {
          assert listeners[..n][i] == listeners[i];
        }
      }
    }
  }

  /**
   * The record of a single listener: a listener in the middle of the list contributes
   * one record exactly when it satisfies the condition, and it sits between the records
   * of the listeners before and after it.
   */
  lemma ListenerRecordInPlace(site: Site, before: seq<Listener>, l: Listener, after: seq<Listener>, endpoint: string)
    ensures ListenerHits(site, before + [l] + after, endpoint)
            == ListenerHits(site, before, endpoint)
               + (if ListenerMatches(l, endpoint) then [ListenerRecord(site, l)] else [])
               + ListenerHits(site, after, endpoint)
  {
    ListenerHitsAppend(site, before + [l], after, endpoint);
    ListenerHitsAppend(site, before, [l], endpoint);
    assert [l][..0] == [];
  }

  /** Listeners are walked in order. */
  lemma {:induction false} ListenerHitsAppend(site: Site, a: seq<Listener>, b: seq<Listener>, endpoint: string)
    ensures ListenerHits(site, a + b, endpoint) == ListenerHits(site, a, endpoint) + ListenerHits(site, b, endpoint)
    decreases |b|
  {
    if b != [] {
      var n := |b| - 1;
      assert (a + b)[..|a| + n] == a + b[..n];
      ListenerHitsAppend(site, a, b[..n], endpoint);
    } else {
      assert a + b == a;
    }
  }

  /** Rules are walked in order, each contributing its own records. */
  lemma {:induction false} RoutingRuleHitsAppend(site: Site, a: seq<RoutingRule>, b: seq<RoutingRule>, endpoint: string)
    ensures RoutingRuleHits(site, a + b, endpoint) == RoutingRuleHits(site, a, endpoint) + RoutingRuleHits(site, b, endpoint)
    decreases |b|
  {
    if b != [] {
      var n := |b| - 1;
      assert (a + b)[..|a| + n] == a + b[..n];
      RoutingRuleHitsAppend(site, a, b[..n], endpoint);
    } else {
      assert a + b == a;
    }
  }

  /** Rules whose type is not "Basic" never match by name, whatever their name. */
  lemma {:induction false} NonBasicRulesNeverMatchByName(site: Site, rules: seq<RoutingRule>, endpoint: string)
    requires forall i :: 0 <= i < |rules| ==> !IsBasic(rules[i])
    ensures forall k :: 0 <= k < |RoutingRuleHits(site, rules, endpoint)| ==>
      !RoutingRuleHits(site, rules, endpoint)[k].location.InBasicRule?
    decreases |rules|
  {
    if rules != [] {
      var n := |rules| - 1;
      NonBasicRulesNeverMatchByName(site, rules[..n], endpoint);
      RuleHitsByKind(site, rules[n], endpoint);
      var r := RuleHits(site, rules[n], endpoint);
      assert forall k :: 0 <= k < |r| ==> r[k] in r;
    }
  }

  /**
   * A rule whose redirect configuration id contains the endpoint yields a redirect
   * record, whatever its type and name; likewise for its url path map reference.
   */
  lemma ReferencesMatchIndependentlyOfName(site: Site, rule: RoutingRule, endpoint: string, name: Option<string>, ruleType: Option<string>)
    ensures RefMatches(rule.redirectConfiguration, endpoint) ==>
      Match(site, InRedirect(name, rule.redirectConfiguration.value.id))
        in RuleHits(site, rule.(name := name, ruleType := ruleType), endpoint)
    ensures RefMatches(rule.urlPathMap, endpoint) ==>
      Match(site, InUrlPathMap(name, rule.urlPathMap.value.id))
        in RuleHits(site, rule.(name := name, ruleType := ruleType), endpoint)
  {
  }

  // Absent collections are read as empty, at every level of nesting.

  function NormalizePathRules(rules: seq<PathRule>): (r: seq<PathRule>)
    ensures |r| == |rules|
    decreases |rules|
  {
    if rules == [] then []
    else
      var n := |rules| - 1;
      NormalizePathRules(rules[..n]) + [rules[n].(paths := Some(OrEmpty(rules[n].paths)))]
  }

  function NormalizePathMaps(maps: seq<PathMap>): (r: seq<PathMap>)
    ensures |r| == |maps|
    decreases |maps|
  {
    if maps == [] then []
    else
      var n := |maps| - 1;
      NormalizePathMaps(maps[..n])
        + [maps[n].(pathRules := Some(NormalizePathRules(OrEmpty(maps[n].pathRules))))]
  }

  /** The same gateway with every absent collection replaced by an empty one. */
  function Normalize(gw: Gateway): Gateway {
    gw.(urlPathMaps := Some(NormalizePathMaps(OrEmpty(gw.urlPathMaps))),
        httpListeners := Some(OrEmpty(gw.httpListeners)),
        requestRoutingRules := Some(OrEmpty(gw.requestRoutingRules)))
  }

  lemma {:induction false} NormalizePathRulesKeepsHits(site: Site, mapName: Option<string>, rules: seq<PathRule>, endpoint: string)
    ensures PathRuleHits(site, mapName, NormalizePathRules(rules), endpoint) == PathRuleHits(site, mapName, rules, endpoint)
    decreases |rules|
  {
    if rules != [] {
      var n := |rules| - 1;
      var norm := NormalizePathRules(rules);
      assert norm[..n] == NormalizePathRules(rules[..n]);
      NormalizePathRulesKeepsHits(site, mapName, rules[..n], endpoint);
    }
  }

  lemma {:induction false} NormalizePathMapsKeepsHits(site: Site, maps: seq<PathMap>, endpoint: string)
    ensures PathMapHits(site, NormalizePathMaps(maps), endpoint) == PathMapHits(site, maps, endpoint)
    decreases |maps|
  {
    if maps != [] {
      var n := |maps| - 1;
      var norm := NormalizePathMaps(maps);
      assert norm[..n] == NormalizePathMaps(maps[..n]);
      NormalizePathMapsKeepsHits(site, maps[..n], endpoint);
      NormalizePathRulesKeepsHits(site, maps[n].name, OrEmpty(maps[n].pathRules), endpoint);
    }
  }

  /** An absent collection, anywhere in the gateway, behaves exactly as an empty one. */
  lemma AbsentIsEmpty(site: Site, gw: Gateway, endpoint: string)
    ensures GatewayHits(site, Normalize(gw), endpoint) == GatewayHits(site, gw, endpoint)
  {
    NormalizePathMapsKeepsHits(site, OrEmpty(gw.urlPathMaps), endpoint);
  }

  /** A gateway with no path maps, listeners or rules yields no record. */
  lemma NoCollectionsNoHits(site: Site, gw: Gateway, endpoint: string)
    requires OrEmpty(gw.urlPathMaps) == [] && OrEmpty(gw.httpListeners) == []
    requires OrEmpty(gw.requestRoutingRules) == []
    ensures GatewayHits(site, gw, endpoint) == []
  {
  }

  /** Gateways are scanned in listing order. */
  lemma {:induction false} GatewaysScanAppend(sub: Subscription, a: seq<Gateway>, b: seq<Gateway>, endpoint: string)
    ensures GatewaysScan(sub, a + b, endpoint) == Then(GatewaysScan(sub, a, endpoint), GatewaysScan(sub, b, endpoint))
    decreases |b|
  {
    if b == [] {
      assert a + b == a;
    } else {
      var n := |b| - 1;
      var last := GatewayScan(sub, b[n], endpoint);
      assert (a + b)[..|a| + n] == a + b[..n];
      assert (a + b)[|a| + n] == b[n];
      assert GatewaysScan(sub, a + b, endpoint) == Then(GatewaysScan(sub, a + b[..n], endpoint), last);
      assert GatewaysScan(sub, b, endpoint) == Then(GatewaysScan(sub, b[..n], endpoint), last);
      GatewaysScanAppend(sub, a, b[..n], endpoint);
      ThenAssociative(GatewaysScan(sub, a, endpoint), GatewaysScan(sub, b[..n], endpoint), last);
    }
  }

  /** Subscriptions are scanned in the order given. */
  lemma {:induction false} TenantScanAppend(a: seq<Subscription>, b: seq<Subscription>, endpoint: string)
    ensures TenantScan(a + b, endpoint) == Then(TenantScan(a, endpoint), TenantScan(b, endpoint))
    decreases |b|
  {
    if b == [] {
      assert a + b == a;
    } else {
      var n := |b| - 1;
      assert (a + b)[..|a| + n] == a + b[..n];
      TenantScanAppend(a, b[..n], endpoint);
      ThenAssociative(TenantScan(a, endpoint), TenantScan(b[..n], endpoint), SubscriptionScan(b[n], endpoint));
    }
  }

  /** Once the scan of a prefix of the gateways has stopped, later gateways change nothing. */
  lemma AbortedGatewaysScanIsFinal(sub: Subscription, gws: seq<Gateway>, k: nat, endpoint: string)
    requires k <= |gws|
    requires GatewaysScan(sub, gws[..k], endpoint).Aborted?
    ensures GatewaysScan(sub, gws, endpoint) == GatewaysScan(sub, gws[..k], endpoint)
  {
    GatewaysScanAppend(sub, gws[..k], gws[k..], endpoint);
    assert gws[..k] + gws[k..] == gws;
  }

  /** Once the scan of a prefix of the subscriptions has stopped, later ones change nothing. */
  lemma AbortedTenantScanIsFinal(subs: seq<Subscription>, k: nat, endpoint: string)
    requires k <= |subs|
    requires TenantScan(subs[..k], endpoint).Aborted?
    ensures TenantScan(subs, endpoint) == TenantScan(subs[..k], endpoint)
  {
    TenantScanAppend(subs[..k], subs[k..], endpoint);
    assert subs[..k] + subs[k..] == subs;
  }

  /**
   * A subscription whose listing fails contributes nothing and does not stop the scan:
   * the run is the same as if it were not there.
   */
  lemma FailedSubscriptionIsSkipped(before: seq<Subscription>, failed: Subscription, after: seq<Subscription>, endpoint: string)
    requires failed.listing.ListingFailed?
    ensures TenantScan(before + [failed] + after, endpoint) == TenantScan(before + after, endpoint)
  {
    var head := TenantScan(before, endpoint);
    TenantScanAppend(before + [failed], after, endpoint);
    TenantScanAppend(before, [failed], endpoint);
    TenantScanAppend(before, after, endpoint);
    assert [failed][..0] == [];
    assert TenantScan([failed], endpoint) == Completed([]);
    assert Then(head, Completed([])) == head;
  }

  /**
   * A finished scan reports "not found" exactly when no subscription contributed a
   * record.
   */
  lemma {:induction false} NotFoundIffNoSubscriptionMatched(subs: seq<Subscription>, endpoint: string)
    requires TenantScan(subs, endpoint).Completed?
    ensures ReportsNotFound(TenantScan(subs, endpoint))
            <==> forall i :: 0 <= i < |subs| ==> SubscriptionScan(subs[i], endpoint).matches == []
    decreases |subs|
  {
    if subs != [] {
      var n := |subs| - 1;
      var init := TenantScan(subs[..n], endpoint);
      var last := SubscriptionScan(subs[n], endpoint);
      assert TenantScan(subs, endpoint) == Then(init, last);
      assert init.Completed?;
      assert TenantScan(subs, endpoint).matches == init.matches + last.matches;
      NotFoundIffNoSubscriptionMatched(subs[..n], endpoint);
      assert forall i :: 0 <= i < n ==> subs[..n][i] == subs[i];
    }
  }
}
