/**
 * The search loop of endpointSearch.py: subscriptions, then their gateways, then for
 * each gateway the path-map, listener and routing-rule walks, one record per printed
 * block, with the `found` flag raised at every record. The nested loops of the script
 * are split into one method per loop level. Each returns the records its loop
 * prints, in order, and is proved to return exactly those of the corresponding
 * function of EndpointModel; the caller appends them to what was printed before.
 */
module EndpointSearch {
  import opened Wrappers
  import opened Strings
  import opened EndpointModel

  /** The innermost loop: the paths of one path rule. */
  method ScanPaths(site: Site, mapName: Option<string>, ruleName: Option<string>, paths: seq<string>,
                   endpoint: string, found: bool)
    returns (hits: seq<Match>, found': bool)
    ensures hits == PathHits(site, mapName, ruleName, paths, endpoint)
    ensures found' == (found || hits != [])
  {
    hits, found' := [], found;
    for k := 0 to |paths|
      invariant hits == PathHits(site, mapName, ruleName, paths[..k], endpoint)
      invariant found' == (found || hits != [])
    {
      var path := paths[k];
      assert paths[..k + 1][..k] == paths[..k];
      if Contains(path, endpoint) {
        hits := hits + [Match(site, InPath(mapName, ruleName, path))];
        found' := true;
      }
    }
    assert paths[..|paths|] == paths;
  }

  /** The middle loop: the path rules of one path map (absent `paths` reads as none). */
  method ScanPathRules(site: Site, mapName: Option<string>, rules: seq<PathRule>, endpoint: string, found: bool)
    returns (hits: seq<Match>, found': bool)
    ensures hits == PathRuleHits(site, mapName, rules, endpoint)
    ensures found' == (found || hits != [])
  {
    hits, found' := [], found;
    for j := 0 to |rules|
      invariant hits == PathRuleHits(site, mapName, rules[..j], endpoint)
      invariant found' == (found || hits != [])
    {
      var rule := rules[j];
      assert rules[..j + 1][..j] == rules[..j];
      var more;
      more, found' := ScanPaths(site, mapName, rule.name, OrEmpty(rule.paths), endpoint, found');
      hits := hits + more;
    }
    assert rules[..|rules|] == rules;
  }

  /** The outer loop: the url path maps of a gateway (absent reads as none). */
  method ScanPathMaps(site: Site, maps: Option<seq<PathMap>>, endpoint: string, found: bool)
    returns (hits: seq<Match>, found': bool)
    ensures hits == PathMapHits(site, OrEmpty(maps), endpoint)
    ensures found' == (found || hits != [])
  {
    hits, found' := [], found;
    var pathMaps := OrEmpty(maps);
    for i := 0 to |pathMaps|
      invariant hits == PathMapHits(site, pathMaps[..i], endpoint)
      invariant found' == (found || hits != [])
    {
      var pathMap := pathMaps[i];
      assert pathMaps[..i + 1][..i] == pathMaps[..i];
      var more;
      more, found' := ScanPathRules(site, pathMap.name, OrEmpty(pathMap.pathRules), endpoint, found');
      hits := hits + more;
    }
    assert pathMaps[..|pathMaps|] == pathMaps;
  }

  /** The loop over HTTP listeners (absent reads as none). */
  method ScanListeners(site: Site, listeners: Option<seq<Listener>>, endpoint: string, found: bool)
    returns (hits: seq<Match>, found': bool)
    ensures hits == ListenerHits(site, OrEmpty(listeners), endpoint)
    ensures found' == (found || hits != [])
  {
    hits, found' := [], found;
    var ls := OrEmpty(listeners);
    for i := 0 to |ls|
      invariant hits == ListenerHits(site, ls[..i], endpoint)
      invariant found' == (found || hits != [])
    {
      var listener := ls[i];
      assert ls[..i + 1][..i] == ls[..i];
      if (Truthy(listener.hostName) && Contains(listener.hostName.value, endpoint))
         || (Truthy(listener.name) && Contains(listener.name.value, endpoint)) {
        hits := hits + [Match(site, InListener(listener.name, listener.hostName))];
        found' := true;
      }
    }
    assert ls[..|ls|] == ls;
  }

  /** The body of the routing-rule loop: name (Basic rules only), redirect, url path map. */
  method ScanRule(site: Site, rule: RoutingRule, endpoint: string, found: bool)
    returns (hits: seq<Match>, found': bool)
    ensures hits == RuleHits(site, rule, endpoint)
    ensures found' == (found || hits != [])
  {
    hits, found' := [], found;
    if rule.ruleType == Some("Basic") {
      if Truthy(rule.name) && Contains(rule.name.value, endpoint) {
        hits := hits + [Match(site, InBasicRule(rule.name))];
        found' := true;
      }
    }
    if rule.redirectConfiguration.Some? && Contains(rule.redirectConfiguration.value.id, endpoint) {
      hits := hits + [Match(site, InRedirect(rule.name, rule.redirectConfiguration.value.id))];
      found' := true;
    }
    if rule.urlPathMap.Some? && Contains(rule.urlPathMap.value.id, endpoint) {
      hits := hits + [Match(site, InUrlPathMap(rule.name, rule.urlPathMap.value.id))];
      found' := true;
    }
  }

  /** The loop over request routing rules (absent reads as none). */
  method ScanRoutingRules(site: Site, rules: Option<seq<RoutingRule>>, endpoint: string, found: bool)
    returns (hits: seq<Match>, found': bool)
    ensures hits == RoutingRuleHits(site, OrEmpty(rules), endpoint)
    ensures found' == (found || hits != [])
  {
    hits, found' := [], found;
    var rs := OrEmpty(rules);
    for i := 0 to |rs|
      invariant hits == RoutingRuleHits(site, rs[..i], endpoint)
      invariant found' == (found || hits != [])
    {
      assert rs[..i + 1][..i] == rs[..i];
      var more;
      more, found' := ScanRule(site, rs[i], endpoint, found');
      hits := hits + more;
    }
    assert rs[..|rs|] == rs;
  }

  /**
   * The loop over one subscription's gateways: the resource group and the portal
   * link, then the three walks. Stops with Aborted at a gateway whose id is missing or
   * has no fifth '/'-separated segment.
   */
  method ScanGateways(sub: Subscription, gateways: seq<Gateway>, endpoint: string, found: bool)
    returns (outcome: ScanOutcome, found': bool)
    ensures outcome == GatewaysScan(sub, gateways, endpoint)
    ensures found' == (found || outcome.matches != [])
  {
    var printed: seq<Match> := [];
    found' := found;
    for j := 0 to |gateways|
      invariant GatewaysScan(sub, gateways[..j], endpoint) == Completed(printed)
      invariant found' == (found || printed != [])
    {
      var gw := gateways[j];
      assert gateways[..j + 1][..j] == gateways[..j];
      if gw.id.None? {
        // `None.split` raises and nothing catches it: the run stops here
        outcome := Aborted(printed, None);
        AbortedGatewaysScanIsFinal(sub, gateways, j + 1, endpoint);
        return;
      }
      var rg := ResourceGroupOf(gw.id.value);
      if rg.None? {
        // `id.split("/")[4]` raises and nothing catches it: the run stops here
        outcome := Aborted(printed, gw.id);
        AbortedGatewaysScanIsFinal(sub, gateways, j + 1, endpoint);
        return;
      }
      var site := SiteOf(sub, gw, rg.value);
      var pathHits, listenerHits, ruleHits;
      pathHits, found' := ScanPathMaps(site, gw.urlPathMaps, endpoint, found');
      listenerHits, found' := ScanListeners(site, gw.httpListeners, endpoint, found');
      ruleHits, found' := ScanRoutingRules(site, gw.requestRoutingRules, endpoint, found');
      printed := printed + (pathHits + listenerHits + ruleHits);
    }
    assert gateways[..|gateways|] == gateways;
    outcome := Completed(printed);
  }

  /**
   * The whole run for one endpoint over the subscriptions in listing order. `found` is
   * the flag the closing "not found" message tests.
   */
  method SearchEndpoint(subs: seq<Subscription>, endpoint: string) returns (outcome: ScanOutcome, found: bool)
    ensures outcome == TenantScan(subs, endpoint)
    ensures found == (outcome.matches != [])
  {
    var printed: seq<Match> := [];
    found := false;
    for i := 0 to |subs|
      invariant TenantScan(subs[..i], endpoint) == Completed(printed)
      invariant found == (printed != [])
    {
      var sub := subs[i];
      assert subs[..i + 1][..i] == subs[..i];
      if sub.listing.ListingFailed? {
        // the listing raised: the subscription is reported and skipped
        continue;
      }
      var scanned;
      scanned, found := ScanGateways(sub, sub.listing.gateways, endpoint, found);
      if scanned.Aborted? {
        outcome := Aborted(printed + scanned.matches, scanned.badId);
        AbortedTenantScanIsFinal(subs, i + 1, endpoint);
        return;
      }
      printed := printed + scanned.matches;
    }
    assert subs[..|subs|] == subs;
    outcome := Completed(printed);
  }
}
