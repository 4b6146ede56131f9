/**
 * azure_gtw_checker.py: does an Application Gateway, as the dictionary the SDK's
 * `as_dict()` returns, serve a given hostname, and which gateways of a listing do.
 * Absent dictionary keys are `None`; `x or []` and `x or {}` read them as empty.
 */
module HostnameChecker {
  import opened Wrappers
  import opened Strings

  /** An entry of `http_listeners`, or the `http_listener` embedded in a routing rule. */
  datatype ListenerEntry = ListenerEntry(hostName: Option<string>, name: Option<string>)

  /** An entry of `request_routing_rules`; only its embedded listener is read. */
  datatype RuleEntry = RuleEntry(httpListener: Option<ListenerEntry>)

  /** The fields of a gateway dictionary that the checker reads. */
  datatype GatewayEntry = GatewayEntry(
    name: Option<string>,
    resourceGroup: Option<string>,
    httpListeners: Option<seq<ListenerEntry>>,
    requestRoutingRules: Option<seq<RuleEntry>>)

  /** One element of the list `search_hostname` returns: `{name, resource_group}`. */
  datatype Hit = Hit(name: Option<string>, resourceGroup: Option<string>)

  /** The listener clause: a non-empty host name equal to the term, ignoring case. */
  predicate ListenerHostEquals(listener: ListenerEntry, hostname: string) {
    Truthy(listener.hostName) && Lower(listener.hostName.value) == Lower(hostname)
  }

  /**
   * The string a routing rule is tested on: the embedded listener's host name, or its
   * name when the host name is absent or empty (`a or b`); an absent listener reads as `{}`.
   */
  function RuleCandidate(rule: RuleEntry): Option<string> {
    var listener := rule.httpListener.GetOr(ListenerEntry(None, None));
    if Truthy(listener.hostName) then listener.hostName else listener.name
  }

  /** The rule clause: a non-empty candidate that contains the term, ignoring case. */
  predicate RuleCandidateContains(rule: RuleEntry, hostname: string) {
    var candidate := RuleCandidate(rule);
    Truthy(candidate) && Contains(Lower(candidate.value), Lower(hostname))
  }

  /** The first loop of `search_hostname_in_ag`, returning at the first listener that matches. */
  function AnyListenerEquals(listeners: seq<ListenerEntry>, hostname: string): (r: bool)
    ensures r <==> exists l | l in listeners :: ListenerHostEquals(l, hostname)
  {
    if listeners == [] then false
    else if ListenerHostEquals(listeners[0], hostname) then true
    else AnyListenerEquals(listeners[1..], hostname)
  }

  /** The second loop of `search_hostname_in_ag`, returning at the first rule that matches. */
  function AnyRuleContains(rules: seq<RuleEntry>, hostname: string): (r: bool)
    ensures r <==> exists rule | rule in rules :: RuleCandidateContains(rule, hostname)
  {
    if rules == [] then false
    else if RuleCandidateContains(rules[0], hostname) then true
    else AnyRuleContains(rules[1..], hostname)
  }

  /**
   * `search_hostname_in_ag`: the listener loop, then the rule loop, else False. It holds
   * exactly when some listener or some rule satisfies its clause.
   */
  function SearchHostnameInAg(ag: GatewayEntry, hostname: string): (r: bool)
    ensures r <==>
      (exists l | l in OrEmpty(ag.httpListeners) :: ListenerHostEquals(l, hostname))
      || (exists rule | rule in OrEmpty(ag.requestRoutingRules) :: RuleCandidateContains(rule, hostname))
  {
    AnyListenerEquals(OrEmpty(ag.httpListeners), hostname)
    || AnyRuleContains(OrEmpty(ag.requestRoutingRules), hostname)
  }

  /** A gateway with no listeners and no rules, absent or empty, never matches. */
  lemma NothingToInspect(ag: GatewayEntry, hostname: string)
    requires ag.httpListeners.None? || ag.httpListeners == Some([])
    requires ag.requestRoutingRules.None? || ag.requestRoutingRules == Some([])
    ensures !SearchHostnameInAg(ag, hostname)
  {
  }

  /** The predicate ignores case in the term: terms that lower to the same string agree. */
  lemma SearchIgnoresCase(ag: GatewayEntry, h1: string, h2: string)
    requires Lower(h1) == Lower(h2)
    ensures SearchHostnameInAg(ag, h1) == SearchHostnameInAg(ag, h2)
  {
  }

  /**
   * The listener clause is equality, not containment: a listener whose host name only
   * contains the term, with no routing rules, does not match.
   */
  lemma ListenerContainmentIsNotEnough(host: string, hostname: string, gatewayName: Option<string>, listenerName: Option<string>)
    requires Contains(host, hostname) && |host| > |hostname|
    ensures !SearchHostnameInAg(
      GatewayEntry(gatewayName, None, Some([ListenerEntry(Some(host), listenerName)]), None), hostname)
  {
    if Lower(host) == Lower(hostname) {
      LowerEqualSameLength(host, hostname);
    }
  }

  /** The rule clause is containment: a rule whose listener has a non-empty host name containing the term matches. */
  lemma RuleContainmentIsEnough(ag: GatewayEntry, rule: RuleEntry, host: string, hostname: string)
    requires ag.requestRoutingRules.Some? && rule in ag.requestRoutingRules.value
    requires rule.httpListener.Some? && rule.httpListener.value.hostName == Some(host)
    requires host != "" && Contains(Lower(host), Lower(hostname))
    ensures SearchHostnameInAg(ag, hostname)
  {
    assert RuleCandidateContains(rule, hostname);
  }

  /**
   * The rule clause falls back to the listener's name when its host name is absent or
   * empty, and an empty term is contained in every non-empty candidate.
   */
  lemma RuleFallsBackToName(rule: RuleEntry, hostname: string)
    requires rule.httpListener.Some? && !Truthy(rule.httpListener.value.hostName)
    ensures RuleCandidateContains(rule, hostname) <==>
      Truthy(rule.httpListener.value.name)
      && Contains(Lower(rule.httpListener.value.name.value), Lower(hostname))
  {
  }

  /** An empty term never equals a listener host name but is in every non-empty candidate. */
  lemma EmptyTerm(listener: ListenerEntry, rule: RuleEntry)
    ensures !ListenerHostEquals(listener, "")
    ensures RuleCandidateContains(rule, "") <==> Truthy(RuleCandidate(rule))
  {
    if Truthy(RuleCandidate(rule)) {
      EmptyOccursEverywhere(Lower(RuleCandidate(rule).value));
    }
  }

  /** The projection `{'name': ag.get('name'), 'resource_group': ag.get('resource_group')}`. */
  function HitOf(ag: GatewayEntry): Hit {
    Hit(ag.name, ag.resourceGroup)
  }

  /** The list `search_hostname` builds: the matching gateways, in order, projected. */
  function Hits(ags: seq<GatewayEntry>, hostname: string): seq<Hit>
  {
    if ags == [] then []
    else
      var n := |ags| - 1;
      Hits(ags[..n], hostname) + (if SearchHostnameInAg(ags[n], hostname) then [HitOf(ags[n])] else [])
  }

  /** Filtering distributes over concatenation, so the hits keep the input order. */
  lemma {:induction false} HitsAppend(xs: seq<GatewayEntry>, ys: seq<GatewayEntry>, hostname: string)
    ensures Hits(xs + ys, hostname) == Hits(xs, hostname) + Hits(ys, hostname)
    decreases |ys|
  {
    if ys == [] {
      assert xs + ys == xs;
    } else {
      var n := |ys| - 1;
      assert (xs + ys)[..|xs| + n] == xs + ys[..n];
      HitsAppend(xs, ys[..n], hostname);
    }
  }

  /** A hit is the projection of a matching gateway, and every matching gateway gives one. */
  lemma {:induction false} HitsMembership(ags: seq<GatewayEntry>, hostname: string)
    ensures forall h :: h in Hits(ags, hostname) <==>
      exists ag | ag in ags :: SearchHostnameInAg(ag, hostname) && HitOf(ag) == h
    ensures |Hits(ags, hostname)| <= |ags|
  {
    if ags != [] {
      var n := |ags| - 1;
      HitsMembership(ags[..n], hostname);
      assert ags == ags[..n] + [ags[n]];
      forall h
        ensures h in Hits(ags, hostname) <==>
          exists ag | ag in ags :: SearchHostnameInAg(ag, hostname) && HitOf(ag) == h
      {
        if exists ag | ag in ags :: SearchHostnameInAg(ag, hostname) && HitOf(ag) == h {
          var ag :| ag in ags && SearchHostnameInAg(ag, hostname) && HitOf(ag) == h;
          if ag != ags[n] {
            assert ag in ags[..n];
          }
        }
      }
    }
  }

  /** With no gateway matching, the result is empty. */
  lemma {:induction false} HitsNone(ags: seq<GatewayEntry>, hostname: string)
    requires forall i | 0 <= i < |ags| :: !SearchHostnameInAg(ags[i], hostname)
    ensures Hits(ags, hostname) == []
  {
    if ags != [] {
      var n := |ags| - 1;
      assert forall i | 0 <= i < n :: ags[..n][i] == ags[i];
      HitsNone(ags[..n], hostname);
    }
  }

  /** Every gateway of a listing projected to `{name, resource_group}`, in order. */
  function Project(ags: seq<GatewayEntry>): seq<Hit>
  {
    if ags == [] then [] else Project(ags[..|ags| - 1]) + [HitOf(ags[|ags| - 1])]
  }

  /** With every gateway matching, the result is every gateway projected, in order. */
  lemma {:induction false} HitsAll(ags: seq<GatewayEntry>, hostname: string)
    requires forall i | 0 <= i < |ags| :: SearchHostnameInAg(ags[i], hostname)
    ensures Hits(ags, hostname) == Project(ags)
  {
    if ags != [] {
      var n := |ags| - 1;
      assert SearchHostnameInAg(ags[n], hostname);
      assert forall i | 0 <= i < n :: ags[..n][i] == ags[i];
      HitsAll(ags[..n], hostname);
    }
  }

  /** `search_hostname` after the listing: the loop that appends each matching gateway. */
  method SearchHostname(ags: seq<GatewayEntry>, hostname: string) returns (found: seq<Hit>)
    ensures found == Hits(ags, hostname)
  {
    found := [];
    for i := 0 to |ags|
      invariant found == Hits(ags[..i], hostname)
    {
      var ag := ags[i];
      assert ags[..i + 1][..i] == ags[..i];
      if SearchHostnameInAg(ag, hostname) {
        found := found + [HitOf(ag)];
      }
    }
    assert ags[..|ags|] == ags;
  }

  /** The scenario of tests/test_checker.py: of two gateways, only the production one is found. */
  lemma ScenarioFound()
    ensures Hits(
      [ GatewayEntry(Some("app-gtw-prod"), Some("rg-prod"), Some([ListenerEntry(Some("ejemplo.com"), None)]), Some([])),
        GatewayEntry(Some("app-gtw-dr"), Some("rg-dr"), Some([ListenerEntry(Some("otro.com"), None)]), Some([])) ],
      "ejemplo.com") == [Hit(Some("app-gtw-prod"), Some("rg-prod"))]
  {
    var prod := GatewayEntry(Some("app-gtw-prod"), Some("rg-prod"), Some([ListenerEntry(Some("ejemplo.com"), None)]), Some([]));
    var dr := GatewayEntry(Some("app-gtw-dr"), Some("rg-dr"), Some([ListenerEntry(Some("otro.com"), None)]), Some([]));
    assert ListenerHostEquals(ListenerEntry(Some("ejemplo.com"), None), "ejemplo.com");
    assert SearchHostnameInAg(prod, "ejemplo.com");
    if Lower("otro.com") == Lower("ejemplo.com") {
      LowerEqualSameLength("otro.com", "ejemplo.com");
    }
    assert !SearchHostnameInAg(dr, "ejemplo.com");
    HitsAppend([prod], [dr], "ejemplo.com");
    assert [prod] + [dr] == [prod, dr];
    assert Hits([prod], "ejemplo.com") == [HitOf(prod)];
    assert Hits([dr], "ejemplo.com") == [];
  }

  /** The scenario of tests/test_checker.py: a term matching nothing gives the empty list. */
  lemma ScenarioNotFound()
    ensures Hits([GatewayEntry(Some("app-gtw"), Some("rg"), Some([ListenerEntry(Some("no-coincide.com"), None)]), Some([]))],
                 "noexiste.com") == []
  {
    var ag := GatewayEntry(Some("app-gtw"), Some("rg"), Some([ListenerEntry(Some("no-coincide.com"), None)]), Some([]));
    if Lower("no-coincide.com") == Lower("noexiste.com") {
      LowerEqualSameLength("no-coincide.com", "noexiste.com");
    }
    assert !AnyListenerEquals(OrEmpty(ag.httpListeners), "noexiste.com");
    assert [ag][..0] == [];
  }
}
