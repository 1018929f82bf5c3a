/** Route outcomes as pure decisions; the coordinator persists them. */
module DenialPolicy {
  import opened Options
  import opened Contracts

  datatype FailureEvidence =
    | ProxyConnectTimeout | ProxyTlsFailure | ProxyAuthentication | VerifiedProxyGatewayError | OtherTransportFailure

  datatype ResponseEvidence = ResponseEvidence(
    statusCode: Option<int>, failure: Option<FailureEvidence>, portalResponded: bool,
    retryAfterSeconds: Option<int>, challenge: bool)

  function ClassifyResponse(route: Route, e: ResponseEvidence): Classification {
    if e.statusCode == Some(403) || e.statusCode == Some(429) || e.retryAfterSeconds.Some? || e.challenge
       || (e.statusCode == Some(407) && e.portalResponded)
    then PortalDenial
    else if route.Proxy? && !e.portalResponded
            && (e.statusCode == Some(407)
                || (e.statusCode.None?
                    && e.failure in {Some(ProxyConnectTimeout), Some(ProxyTlsFailure), Some(ProxyAuthentication)})
                || e.failure == Some(VerifiedProxyGatewayError))
    then ProxyInfrastructureFailure
    else if e.statusCode.Some? then
      (if 200 <= e.statusCode.value < 300 then Success else PortalResponse)
    else if e.portalResponded then PortalResponse
    else TransportFailure
  }

  /** The portal denied the request, or asked for a pause. */
  predicate DenialEvidence(e: ResponseEvidence) {
    e.challenge || e.retryAfterSeconds.Some?
    || (e.statusCode.Some? && (e.statusCode.value in {403, 429} || (e.statusCode.value == 407 && e.portalResponded)))
  }

  /** The proxy failed before anything reached the portal. */
  predicate ProxyFault(route: Route, e: ResponseEvidence) {
    route == Proxy && !e.portalResponded
    && (e.statusCode == Some(407) || e.failure == Some(VerifiedProxyGatewayError)
        || (e.statusCode == None && e.failure.Some? && e.failure.value in {ProxyConnectTimeout, ProxyTlsFailure, ProxyAuthentication}))
  }

  /** Which evidence gives which classification: a denial wins over everything, a fault of the proxy over the status, and
      only a 2xx status is a success. */
  lemma ClassifiedExactly(route: Route, e: ResponseEvidence)
    ensures var c := ClassifyResponse(route, e);
            var other := !DenialEvidence(e) && !ProxyFault(route, e);
            (c == PortalDenial <==> DenialEvidence(e))
            && (c == ProxyInfrastructureFailure <==> ProxyFault(route, e) && !DenialEvidence(e))
            && (c == Success <==> other && e.statusCode.Some? && e.statusCode.value / 100 == 2)
            && (c == TransportFailure <==> other && e.statusCode.None? && !e.portalResponded)
  {
  }

  datatype RouteDecision = RouteDecision(
    retryDirectAt: Option<Time>, sourceCooldownUntil: Option<Time>,
    markProxyUnhealthy: bool, quarantineProxySource: bool, consecutiveDirectDenials: int)

  function Max(a: int, b: int): int { if a >= b then a else b }
  function Min(a: int, b: int): int { if a <= b then a else b }

  function OrZero(retryAfter: Option<int>): int {
    if retryAfter.Some? then retryAfter.value else 0
  }

  /** Hours of source cooldown after a direct denial that follows `streak` others. */
  function CooldownHours(streak: int): int {
    if streak <= 0 then 6 else if streak == 1 then 12 else 24
  }

  /** `decide_route_outcome` as the coordinator calls it: no fallback has been used under this permit. */
  function Decide(route: Route, c: Classification, now: Time, denials: int, retryAfter: Option<int>): RouteDecision {
    var denial := c.PortalDenial?;
    var infrastructure := c.ProxyInfrastructureFailure?;
    RouteDecision(
      if route.Proxy? && (denial || infrastructure)
      then Some(now + (if denial then Seconds(Max(900, OrZero(retryAfter))) else 0)) else None,
      if route.Direct? && denial
      then Some(now + Seconds(Max(CooldownHours(denials) * 3600, OrZero(retryAfter)))) else None,
      route.Proxy? && infrastructure,
      route.Proxy? && denial,
      if route.Direct? && denial then denials + 1 else denials)
  }

  /** A failure frees the worker from the portal's rules only on positive evidence from before the
      portal: a denial of any kind on the proxy route always waits out the portal's delay, and a
      response that reached the portal never counts as the proxy's fault. */
  lemma ReliefNeedsProxyEvidence(route: Route, e: ResponseEvidence, now: Time, denials: int)
    ensures var c := ClassifyResponse(route, e);
            var d := Decide(route, c, now, denials, e.retryAfterSeconds);
            d.retryDirectAt == Some(now) && !c.PortalDenial? ==>
              route.Proxy? && !e.portalResponded && !e.challenge && e.retryAfterSeconds.None?
              && (e.failure.Some? || e.statusCode == Some(407))
    ensures var c := ClassifyResponse(route, e);
            var d := Decide(route, c, now, denials, e.retryAfterSeconds);
            c.PortalDenial? && route.Proxy? ==>
              d.retryDirectAt.Some? && d.retryDirectAt.value >= now + Seconds(900)
              && d.retryDirectAt.value >= now + Seconds(OrZero(e.retryAfterSeconds))
              && !d.markProxyUnhealthy && d.sourceCooldownUntil.None?
    ensures var c := ClassifyResponse(route, e);
            var d := Decide(route, c, now, denials, e.retryAfterSeconds);
            d.sourceCooldownUntil.Some? <==> route.Direct? && c.PortalDenial?
    ensures var d := Decide(route, ClassifyResponse(route, e), now, denials, e.retryAfterSeconds);
            (d.markProxyUnhealthy <==> ProxyFault(route, e) && !DenialEvidence(e))
            && (d.quarantineProxySource <==> route.Proxy? && DenialEvidence(e))
  {
  }
}
