/**
  Endpoint selection in OpenAsync when no certificate store is configured: the first discovered
  endpoint whose security policy is None, with its URL replaced by the configured one.
 */
module EndpointSelection {
  import opened Wrappers
  import opened Ua

  /** Position of `FirstOrDefault(e => e.SecurityPolicyUri == SecurityPolicyUris.None)`. */
  function FirstNonePolicy(endpoints: seq<EndpointDescription>): (r: Option<nat>)
    ensures r.Some? ==> r.value < |endpoints| && endpoints[r.value].securityPolicyUri == SecurityPolicyNone
    ensures r.Some? ==> forall j :: 0 <= j < r.value ==> endpoints[j].securityPolicyUri != SecurityPolicyNone
    ensures r.None? <==> forall j :: 0 <= j < |endpoints| ==> endpoints[j].securityPolicyUri != SecurityPolicyNone
  {
    if endpoints == [] then None
    else if endpoints[0].securityPolicyUri == SecurityPolicyNone then Some(0)
    else
      match FirstNonePolicy(endpoints[1..])
      case None => None
      case Some(k) => Some(k + 1)
  }

  /**
    The endpoint OpenAsync keeps: present exactly when some endpoint has policy None; then it is
    the first such endpoint, unchanged except that its URL is the configured one.
   */
  function SelectEndpoint(endpoints: seq<EndpointDescription>, configuredUrl: string): (r: Option<EndpointDescription>)
    ensures r.Some? <==> exists i :: 0 <= i < |endpoints| && endpoints[i].securityPolicyUri == SecurityPolicyNone
    ensures r.Some? ==> r.value.securityPolicyUri == SecurityPolicyNone && r.value.endpointUrl == configuredUrl
    ensures r.Some? ==>
      exists i ::
        && 0 <= i < |endpoints|
        && (forall j :: 0 <= j < i ==> endpoints[j].securityPolicyUri != SecurityPolicyNone)
        && r.value == endpoints[i].(endpointUrl := configuredUrl)
  {
    match FirstNonePolicy(endpoints)
    case None => None
    case Some(i) => Some(endpoints[i].(endpointUrl := configuredUrl))
  }

  /** A None-policy endpoint is chosen over any secured one, whatever the discovery order. */
  lemma NonePolicyPreferred(endpoints: seq<EndpointDescription>, configuredUrl: string, i: nat, j: nat)
    requires i < |endpoints| && j < |endpoints|
    requires endpoints[i].securityPolicyUri == SecurityPolicyNone
    requires endpoints[j].securityPolicyUri != SecurityPolicyNone
    ensures SelectEndpoint(endpoints, configuredUrl).Some?
    ensures SelectEndpoint(endpoints, configuredUrl).value != endpoints[j].(endpointUrl := configuredUrl)
  {
  }
}
