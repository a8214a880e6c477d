/**
 * The balancer instantiated for a service "orders-service" with instances named
 * "A", "B" and "C", requests given by their headers, a router with the single
 * rule "region=eu goes to B", and a fallback that picks "A".
 */
module OrdersScenario {
  import opened Wrappers
  import opened Loadbalancer

  type Headers = map<string, string>

  /** Routes region=eu to B when B is offered and answers "unavailable" when it is not; other requests are unmatched. */
  function RegionRule(source: RouterSource<Headers>, locations: seq<ServiceLocation<string>>): Location<string>
  {
    if "region" in source.request && source.request["region"] == "eu" then
      if ServiceLocation("B") in locations then Service(ServiceLocation("B")) else Unavailable
    else
      Unmatched
  }

  /** The orders balancer whose supplier emits the given pool once. */
  function Orders(pool: seq<string>): RouterReactorLoadbalancer<string, Headers>
  {
    RouterReactorLoadbalancer("orders-service", Some(_ => [pool]), _ => Some(Default("A")), RegionRule)
  }

  /** region=eu over A, B, C: the router's choice B is returned and the fallback is untouched. */
  lemma EuGoesToB()
    ensures Choose(Orders(["A", "B", "C"]), map["region" := "eu"]).response == Some(Default("B"))
    ensures NoFallback(Choose(Orders(["A", "B", "C"]), map["region" := "eu"]).calls)
  {
  }

  /** region=us matches no rule: the fallback's choice A is returned. */
  lemma UsFallsBack()
    ensures Choose(Orders(["A", "B", "C"]), map["region" := "us"]).response == Some(Default("A"))
    ensures !NoFallback(Choose(Orders(["A", "B", "C"]), map["region" := "us"]).calls)
  {
    ChooseRoutesOnce(Orders(["A", "B", "C"]), map["region" := "us"]);
  }

  /** region=eu when B is not in the pool: no instance, and the fallback is never consulted. */
  lemma EuWithoutBIsUnavailable()
    ensures Choose(Orders(["A", "C"]), map["region" := "eu"]).response == Some(Empty)
    ensures NoFallback(Choose(Orders(["A", "C"]), map["region" := "eu"]).calls)
  {
  }
}
