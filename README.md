# Application Gateway endpoint search, modelled in Dafny

Two scripts search Azure Application Gateways for a string. `endpointSearch.py` covers every
subscription of the tenant. `azure_gtw_checker.py` covers the gateways of the one subscription it
is given.

- `endpointSearch.py` walks every subscription and every gateway in it. In each gateway it looks
  for an endpoint (a path such as `/myapi` or a host such as `api.mydomain.com`) in three places,
  in this order:
  - the URL path maps, going path map → path rule → path;
  - the HTTP listeners, by host name and name;
  - the request routing rules, by the name of a `Basic` rule, the id of the redirect
    configuration and the id of the URL path map.

  Each hit prints a block naming the subscription and the gateway's resource group. The resource
  group is the fifth `/`-separated segment of the gateway id. The block also carries a portal deep
  link. If nothing was found, the script says so at the end. A subscription whose gateway listing
  fails is skipped.
- `azure_gtw_checker.py` decides whether one gateway, given as a dictionary, serves a hostname. It
  reports the name and resource group of every gateway in a listing that does.

The model has five modules:

- `Wrappers` (`wrappers.dfy`): `Option`, and `OrEmpty`, which is Python's `x or []`.
- `Strings` (`strings.dfy`):
  - Python truthiness of an optional string;
  - substring containment (`t in s`), with a reference scan proved equal to it;
  - ASCII lower-casing;
  - `str.split` on a single character, with `Join` and both round trips.
- `EndpointModel` (`endpoint_model.dfy`):
  - the configuration snapshot and the match records, one per printed block;
  - the walks as functions on sequences;
  - the subscription/gateway scan as a `ScanOutcome`: either it completes, or it stops at a
    gateway whose id is missing or has no fifth segment, where the unguarded `id.split("/")[4]`
    raises;
  - the lemmas about all of these.
- `EndpointSearch` (`endpoint_search.dfy`): the nested loops of the script as methods with loop
  invariants. Each method returns the records its loop prints and the updated `found` flag, and is
  proved equal to the corresponding `EndpointModel` function.
- `HostnameChecker` (`hostname_checker.dfy`):
  - `search_hostname_in_ag` as a pure function with its existential characterisation;
  - `search_hostname`'s appending loop as a method proved equal to a filter-and-project function.

Behaviour of the code worth noting:

- Neither script rejects an empty search term, and the empty string occurs in every string.
  - In `endpointSearch.py` an empty endpoint therefore matches:
    - every path, including an empty one, since paths have no truthiness test;
    - every listener with a non-empty host name or name;
    - every `Basic` rule with a non-empty name;
    - every present redirect or URL path map reference, whatever its id, including an empty one.
  - In `azure_gtw_checker.py` an empty hostname never satisfies the listener clause, because a
    non-empty host name never equals `""` after lower-casing. It matches only through a rule whose
    candidate (host name, or else name) is non-empty.
- The listener test in `endpointSearch.py` reads `host_name` and `name` only. The `host_names`
  list is not read.
- The rule type is compared with the string `"Basic"`.

## Model

| member | source | states |
|---|---|---|
| Strings.ScanForIsContains | endpointSearch.py:73 | The reference left-to-right scan for a substring agrees with `Contains` (some position where the term occurs), which is Python's `in` on strings. |
| Strings.EmptyOccursEverywhere | endpointSearch.py:73 | The empty term occurs in every string. So in `endpointSearch.py` an unchecked empty endpoint passes every containment test: every path, every non-empty listener host name or name, every non-empty `Basic` rule name, and every present reference id. In the checker it passes only the rule clause (see HostnameChecker.EmptyTerm). |
| Strings.LowerEqualSameLength | azure_gtw_checker.py:48 | Strings equal ignoring case have the same length. |
| Strings.Lower | azure_gtw_checker.py:48 | ASCII lower-casing keeps the length, maps each upper-case ASCII letter to its lower-case letter (code point plus 32) and keeps every other character. |
| Strings.SplitCount | endpointSearch.py:66 | `split` on a character yields one more piece than the number of occurrences of that character. |
| Strings.Split | endpointSearch.py:66 | `split` yields at least one piece, and no piece contains the separator. |
| Strings.JoinSplit | endpointSearch.py:66 | Joining the pieces of `split` with the separator gives back the original string. |
| Strings.SplitJoin | endpointSearch.py:66 | Splitting a join of separator-free pieces gives back those pieces. |
| Strings.SplitAfterPiece | endpointSearch.py:66 | A separator-free prefix followed by the separator is exactly the first piece of the split. |
| Strings.SplitNoSeparator | endpointSearch.py:66 | A string without the separator splits into itself alone. |
| EndpointModel.ResourceGroupOfDefined | endpointSearch.py:66 | `id.split("/")[4]` exists exactly when the id holds at least four `/`, and it is a single segment. |
| EndpointModel.FifthPiece | endpointSearch.py:66-67 | In a string `/subscriptions/<a>/resourceGroups/<b>/<rest>` with `a` and `b` free of `/`, the fifth piece of the split is `b`. |
| EndpointModel.ResourceGroupOfCanonicalId | endpointSearch.py:66-67 | The resource group read back from a canonical gateway id is the one written into it. |
| EndpointModel.GatewayResourceGroupDefined | endpointSearch.py:66 | A gateway has a resource group exactly when its id is present and holds at least four `/`; otherwise `split` or `[4]` raises. |
| EndpointModel.PortalLinkAddressesGateway | endpointSearch.py:66-67 | For a gateway with a canonical id, the resource group read from it is the one written in, and the printed portal link is the portal prefix followed by exactly that gateway's id. |
| EndpointModel.ThenAssociative | endpointSearch.py:54-66 | Sequencing scan steps is associative, so the scan can be split at any subscription or gateway. |
| EndpointModel.PathHitsShape | endpointSearch.py:72-81 | Each path record carries the path map's name, the rule's name and a path of that rule that contains the endpoint, and there are no more records than paths. |
| EndpointModel.EmptyEndpointMatchesEveryPath | endpointSearch.py:72-73 | With an empty endpoint every path yields a record, empty paths included, since no truthiness test guards line 73. |
| EndpointModel.PathRecordInPlace | endpointSearch.py:72-81 | A path contributes exactly one record, and only if it contains the endpoint, between the records of the paths before and after it. |
| EndpointModel.PathHitsAppend | endpointSearch.py:72 | Paths are walked in order: the records of `a + b` are those of `a` then those of `b`. |
| EndpointModel.PathRuleHitsShape | endpointSearch.py:71-81 | Every record from a path map's rules is a path record naming that map. |
| EndpointModel.PathRuleHitsAppend | endpointSearch.py:71 | Path rules are walked in order. |
| EndpointModel.PathMapHitsShape | endpointSearch.py:70-81 | Every record from the path maps is a path record for the gateway being scanned. |
| EndpointModel.PathMapHitsAppend | endpointSearch.py:70 | Path maps are walked in order. |
| EndpointModel.ListenerHitsShape | endpointSearch.py:84-93 | Every listener record is for the gateway being scanned, and there are no more records than listeners. |
| EndpointModel.ListenerRecordInPlace | endpointSearch.py:84-93 | A listener contributes exactly one record, and only if its truthy host name or truthy name contains the endpoint, between the records of the listeners before and after it. |
| EndpointModel.ListenerHitsExact | endpointSearch.py:84-93 | A listener record exists exactly for a listener whose non-empty host name or non-empty name contains the endpoint, and it carries that listener's name and host name. |
| EndpointModel.ListenerHitsAppend | endpointSearch.py:84 | Listeners are walked in order. |
| EndpointModel.RuleHitsByKind | endpointSearch.py:96-122 | A rule yields a name record exactly when it is `Basic` with a truthy name containing the endpoint. It yields a redirect record exactly when the redirect configuration is present and its id contains the endpoint, and likewise for the URL path map. That is at most three records. |
| EndpointModel.RoutingRuleHitsShape | endpointSearch.py:96-122 | All records of the rule walk are rule records for the gateway being scanned, and there are at most three times as many as rules (the per-rule facts are in RuleHitsByKind). |
| EndpointModel.RoutingRuleHitsAppend | endpointSearch.py:96 | Routing rules are walked in order. |
| EndpointModel.NonBasicRulesNeverMatchByName | endpointSearch.py:97-98 | Rules whose type is not `Basic` never yield a name record. |
| EndpointModel.ReferencesMatchIndependentlyOfName | endpointSearch.py:106-122 | The redirect and URL-path-map records do not depend on the rule's type or name. |
| EndpointModel.GatewayHitsOrdered | endpointSearch.py:69-122 | Within one gateway every record names that gateway, and all path records come before all listener records, which come before all rule records. |
| EndpointModel.NormalizePathRulesKeepsHits | endpointSearch.py:72 | An absent `paths` yields the same records as an empty one. |
| EndpointModel.NormalizePathMapsKeepsHits | endpointSearch.py:71-72 | An absent `path_rules` or `paths` yields the same records as an empty one. |
| EndpointModel.AbsentIsEmpty | endpointSearch.py:70-72 | A gateway with any of its collections absent yields the same records as with those collections empty, at every level of nesting. |
| EndpointModel.NoCollectionsNoHits | endpointSearch.py:70-96 | A gateway whose path maps, listeners and routing rules are absent or empty yields no record. |
| EndpointModel.GatewaysScanAppend | endpointSearch.py:65 | Gateways are scanned in listing order: scanning `a + b` is scanning `a` then `b`. |
| EndpointModel.TenantScanAppend | endpointSearch.py:54 | Subscriptions are scanned in listing order. |
| EndpointModel.AbortedGatewaysScanIsFinal | endpointSearch.py:66 | Once a missing gateway id or one without a fifth segment has stopped the run, the later gateways change nothing. |
| EndpointModel.AbortedTenantScanIsFinal | endpointSearch.py:66 | Once the run has stopped, the later subscriptions change nothing. |
| EndpointModel.FailedSubscriptionIsSkipped | endpointSearch.py:59-63 | A subscription whose gateway listing fails contributes nothing and does not stop the scan: the run is the same as without it. |
| EndpointModel.NotFoundIffNoSubscriptionMatched | endpointSearch.py:52-126 | A finished run reports "not found" exactly when no subscription contributed a record. |
| EndpointSearch.ScanPaths | endpointSearch.py:72-81 | The loop over one rule's paths returns exactly that rule's path records and sets `found` exactly when it returns one. |
| EndpointSearch.ScanPathRules | endpointSearch.py:71-81 | The loop over a path map's rules returns exactly their path records, with absent `paths` read as empty, and raises `found` the same way. |
| EndpointSearch.ScanPathMaps | endpointSearch.py:70-81 | The loop over the path maps returns exactly the gateway's path records, with absent collections read as empty. |
| EndpointSearch.ScanListeners | endpointSearch.py:84-93 | The listener loop returns exactly the listener records. |
| EndpointSearch.ScanRule | endpointSearch.py:97-122 | The body of the rule loop returns the name, redirect and URL-path-map records of one rule, in that order. |
| EndpointSearch.ScanRoutingRules | endpointSearch.py:96-122 | The rule loop returns exactly the routing-rule records. |
| EndpointSearch.ScanGateways | endpointSearch.py:65-122 | The gateway loop computes the resource group and portal link and returns the records of the three walks, gateway by gateway. It stops at the first gateway whose id is missing or has no fifth segment, keeping what was printed. |
| EndpointSearch.SearchEndpoint | endpointSearch.py:52-126 | The whole run is the tenant scan. Failed listings are skipped, and a stop ends the run. The final `found` flag is false exactly when no record was printed, which is when "not found" is reported. |
| HostnameChecker.AnyListenerEquals | azure_gtw_checker.py:46-49 | The listener loop returns True exactly when some listener has a non-empty host name equal to the term, ignoring case. |
| HostnameChecker.AnyRuleContains | azure_gtw_checker.py:52-56 | The rule loop returns True exactly when some rule's candidate is non-empty and contains the term, ignoring case. The candidate is the embedded listener's host name, or else its name. |
| HostnameChecker.SearchHostnameInAg | azure_gtw_checker.py:40-58 | The predicate holds exactly when the listener clause holds for some listener or the rule clause holds for some rule, with absent lists read as empty. |
| HostnameChecker.NothingToInspect | azure_gtw_checker.py:46-58 | With listeners and rules both absent or empty, the predicate is false. |
| HostnameChecker.SearchIgnoresCase | azure_gtw_checker.py:48-55 | Terms that are equal ignoring case give the same answer. |
| HostnameChecker.ListenerContainmentIsNotEnough | azure_gtw_checker.py:48 | A listener whose host name strictly contains the term, with no rules, does not match: the listener clause is equality. |
| HostnameChecker.RuleContainmentIsEnough | azure_gtw_checker.py:52-56 | A rule whose listener has a non-empty host name containing the term, ignoring case, makes the gateway match. |
| HostnameChecker.RuleFallsBackToName | azure_gtw_checker.py:53-55 | When the embedded listener's host name is absent or empty, the rule is tested on the listener's name. |
| HostnameChecker.EmptyTerm | azure_gtw_checker.py:48-55 | An empty term never equals a listener host name, but is contained in every non-empty rule candidate. |
| HostnameChecker.HitsAppend | azure_gtw_checker.py:66-68 | The filter keeps input order: the hits of `a + b` are those of `a` then those of `b`. |
| HostnameChecker.HitsMembership | azure_gtw_checker.py:66-68 | A hit is exactly the `{name, resource_group}` projection of some gateway satisfying the predicate, and there are no more hits than gateways. |
| HostnameChecker.HitsNone | azure_gtw_checker.py:66-68 | If no gateway matches, the result is empty. |
| HostnameChecker.HitsAll | azure_gtw_checker.py:66-68 | If every gateway matches, the result is every gateway projected, in order. |
| HostnameChecker.SearchHostname | azure_gtw_checker.py:65-69 | The appending loop returns exactly the filtered and projected list. |
| HostnameChecker.ScenarioFound | tests/test_checker.py:13-21 | Searching `ejemplo.com` over `app-gtw-prod` (listener `ejemplo.com`) and `app-gtw-dr` (listener `otro.com`) returns exactly `app-gtw-prod` with `rg-prod`. |
| HostnameChecker.ScenarioNotFound | tests/test_checker.py:23-27 | Searching `noexiste.com` over one gateway whose only listener is `no-coincide.com` returns the empty list. |

## Left out

- Credentials and SDK clients are not modelled: `AzureCliCredential`, `DefaultAzureCredential`,
  `get_credentials`, `SubscriptionClient`, `NetworkManagementClient` and
  `list_application_gateways`/`as_dict`. The model starts from their results:
  - a sequence of subscriptions, each with a listing that either succeeded with its gateways or
    failed;
  - for the checker, the sequence of gateway dictionaries.
- The exceptions `search_hostname` can raise while listing are not modelled, and neither are the
  messages printed for a failed listing.
- Console I/O is not modelled: `main`, `input()`, `sys.argv` and the text of the printed blocks.
  The model produces one match record per printed block instead. The record carries the fields
  the block prints: subscription, gateway, resource group, portal link and the matching values.
- EndpointModel.PortalLink: the gateway name is a string in the model. Python would format a
  missing name as `None` inside the link; that case is not modelled.
- Strings.Lower: lower-casing is ASCII only. Python's `str.lower()` applies full Unicode case
  mapping, which the model does not.
- A redirect configuration or URL path map reference that is present but has no `id` is not
  modelled. Python would raise a `TypeError` on `in None`; in the model a reference always
  carries an id.
- `tests/test_azure_gtw_checker.py` is not modelled. It exercises a class that is not in
  `azure_gtw_checker.py`.
- `examples/usage_example.py` is not modelled. It only forwards one call.
