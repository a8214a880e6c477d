/**
 * A load balancer for one logical service that asks a router to pick one of the
 * service's instances, and hands the request to a fallback load balancer when the
 * router has no rule for it.
 *
 * The type parameter I stands for a service instance and Q for a load-balancing
 * request; both are opaque here. The three collaborators (the instance-list
 * supplier, the router and the fallback balancer) are fields of function type,
 * fixed when the balancer is built.
 */
module Loadbalancer {
  import opened Wrappers

  /** A load-balancer response: an empty response, or a response carrying the chosen instance. */
  datatype Response<I> = Empty | Default(server: I)

  /** A routing location that wraps one service instance. */
  datatype ServiceLocation<I> = ServiceLocation(serviceInstance: I)

  /**
   * What the router answers: the two shared markers "no rule matched" and
   * "a rule matched but its target is unavailable", a location wrapping a
   * service instance, or a location of some other kind.
   */
  datatype Location<I> =
    | Unmatched
    | Unavailable
    | Service(location: ServiceLocation<I>)
    | Foreign

  /** What the router routes on: the service id and the request. */
  datatype RouterSource<Q> = RouterSource(serviceId: string, request: Q)

  /**
   * The outcome of one routing decision before the fallback is considered:
   * the "not matched" marker, or a response that is final.
   */
  datatype InstanceResponse<I> = NotMatch | Final(response: Response<I>)

  /** The instance lists an instance-list supplier emits for a request, in order. */
  type Supplier<I, !Q> = Q -> seq<seq<I>>

  /** The router's decision function. */
  type Concept<!I, !Q> = (RouterSource<Q>, seq<ServiceLocation<I>>) -> Location<I>

  /**
   * The balancer's final fields: the service id, the supplier the lookup for that
   * service yields (None when the service has none configured), the fallback
   * balancer and the router.
   */
  datatype RouterReactorLoadbalancer<!I, !Q> = RouterReactorLoadbalancer(
    serviceId: string,
    supplierProvider: Option<Supplier<I, Q>>,
    loadBalancer: Q -> Option<Response<I>>,
    concept: Concept<I, Q>)

  /** One call from the balancer into a collaborator. */
  datatype Call<I, Q> =
    | Fetch(request: Q)
    | Route(source: RouterSource<Q>, locations: seq<ServiceLocation<I>>)
    | Fallback(request: Q)

  /**
   * The result of one selection: the response, if the chain produced one, and
   * the calls made into the collaborators, in the order they were made.
   */
  datatype Selection<I, Q> = Selection(response: Option<Response<I>>, calls: seq<Call<I, Q>>)

  // ---------------------------------------------------------------------------
  // Wrapping instances into router locations

  /** Wraps every instance into a location, one to one and in order, dropping none. */
  function Wrap<I>(instances: seq<I>): (locations: seq<ServiceLocation<I>>)
    ensures |locations| == |instances|
    ensures forall k :: 0 <= k < |instances| ==> locations[k] == ServiceLocation(instances[k])
  {
    if |instances| == 0 then [] else [ServiceLocation(instances[0])] + Wrap(instances[1..])
  }

  /** The instances a sequence of locations stands for: the inverse of Wrap. */
  function Instances<I>(locations: seq<ServiceLocation<I>>): seq<I>
  {
    if |locations| == 0 then [] else [locations[0].serviceInstance] + Instances(locations[1..])
  }

  /** Unwrapping the wrapped instances gives back exactly the instances, in order. */
  lemma {:induction false} UnwrapWrap<I>(instances: seq<I>)
    ensures Instances(Wrap(instances)) == instances
  {
    if |instances| > 0 {
      assert Wrap(instances)[1..] == Wrap(instances[1..]);
      UnwrapWrap(instances[1..]);
    }
  }

  /** Two different instance lists never wrap into the same location list. */
  lemma WrapInjective<I>(xs: seq<I>, ys: seq<I>)
    ensures Wrap(xs) == Wrap(ys) <==> xs == ys
  {
  }

  /** A location the router picks from its candidates wraps one of the instances. */
  lemma CandidateWrapsInstance<I>(instances: seq<I>, l: ServiceLocation<I>)
    requires l in Wrap(instances)
    ensures l.serviceInstance in instances
  {
  }

  // ---------------------------------------------------------------------------
  // Fetching the instance list

  /** The first list the supplier (or the no-op supplier) emits, if any. */
  function FirstList<I, Q>(lb: RouterReactorLoadbalancer<I, Q>, request: Q): (first: Option<seq<I>>)
    ensures lb.supplierProvider.None? ==> first.None?
    ensures lb.supplierProvider.Some? ==>
      (first.Some? <==> |lb.supplierProvider.value(request)| > 0)
    ensures first.Some? ==> first.value == lb.supplierProvider.value(request)[0]
  {
    var emitted := match lb.supplierProvider
      case Some(supplier) => supplier(request)
      // No supplier configured: the no-op supplier stands in, and it emits no list.
      case None => [];
    if |emitted| == 0 then None else Some(emitted[0])
  }

  // ---------------------------------------------------------------------------
  // One routing decision

  /** The router's answer for a request over the given instance list. */
  function Answer<I, Q>(lb: RouterReactorLoadbalancer<I, Q>, request: Q, instances: seq<I>): Location<I>
  {
    lb.concept(RouterSource(lb.serviceId, request), Wrap(instances))
  }

  /** The router's answer can be read back as one of the three known kinds. */
  predicate Castable<I, Q>(lb: RouterReactorLoadbalancer<I, Q>, request: Q, instances: seq<I>)
  {
    !Answer(lb, request, instances).Foreign?
  }

  /**
   * Routes the instance list once and classifies the answer: "unmatched" gives the
   * not-matched marker, "unavailable" a final empty response, and a service
   * location a final response carrying the instance it wraps.
   */
  function GetInstanceResponse<I, Q>(lb: RouterReactorLoadbalancer<I, Q>, request: Q, instances: seq<I>): (r: InstanceResponse<I>)
    requires Castable(lb, request, instances)
    ensures r.NotMatch? <==> Answer(lb, request, instances).Unmatched?
    ensures r == Final(Empty) <==> Answer(lb, request, instances).Unavailable?
    ensures forall k :: 0 <= k < |instances| && Answer(lb, request, instances) == Service(Wrap(instances)[k]) ==>
      r == Final(Default(instances[k]))
    ensures r.Final? && r.response.Default? ==>
      Answer(lb, request, instances) == Service(ServiceLocation(r.response.server))
  {
    var location := Answer(lb, request, instances);
    if location.Unmatched? then NotMatch
    else if location.Unavailable? then Final(Empty)
    else Final(Default(location.location.serviceInstance))
  }

  // ---------------------------------------------------------------------------
  // The selection entry point

  /** The router was called exactly once, with the given source and locations. */
  ghost predicate RoutedOnce<I, Q>(calls: seq<Call<I, Q>>, source: RouterSource<Q>, locations: seq<ServiceLocation<I>>)
  {
    exists i :: 0 <= i < |calls| && calls[i] == Route(source, locations) &&
      forall j :: 0 <= j < |calls| && calls[j].Route? ==> j == i
  }

  /** The fallback balancer was never called. */
  ghost predicate NoFallback<I, Q>(calls: seq<Call<I, Q>>)
  {
    forall i :: 0 <= i < |calls| ==> !calls[i].Fallback?
  }

  /** When the supplier emits a list, the router's answer for it is one of the three known kinds. */
  predicate ChooseCastable<I, Q>(lb: RouterReactorLoadbalancer<I, Q>, request: Q)
  {
    FirstList(lb, request).Some? ==> Castable(lb, request, FirstList(lb, request).value)
  }

  /**
   * Chooses an instance for a request: takes the first list the supplier emits,
   * routes it once, and consults the fallback balancer only when the router
   * answered "unmatched".
   */
  function Choose<I, Q>(lb: RouterReactorLoadbalancer<I, Q>, request: Q): (s: Selection<I, Q>)
    requires ChooseCastable(lb, request)
    // Nothing emitted: the supplier was asked, there is no response, and neither the router nor the fallback runs.
    ensures FirstList(lb, request).None? ==> s.response.None? && s.calls == [Fetch(request)]
    ensures FirstList(lb, request).Some? ==>
      var instances := FirstList(lb, request).value;
      var answer := Answer(lb, request, instances);
      // The supplier, then the router once on the service id, the request and every
      // instance, then the fallback once and only on "unmatched": no retry, no other call.
      && s.calls == [Fetch(request), Route(RouterSource(lb.serviceId, request), Wrap(instances))]
                    + (if answer.Unmatched? then [Fallback(request)] else [])
      // On "unmatched" the fallback decides alone.
      && (answer.Unmatched? ==> s.response == lb.loadBalancer(request))
      // "Unavailable" is final: an empty response, whatever the instance list.
      && (answer.Unavailable? ==> s.response == Some(Empty))
      // A chosen location gives back the instance it wraps.
      && (answer.Service? ==> s.response == Some(Default(answer.location.serviceInstance)))
  {
    match FirstList(lb, request)
    case None => Selection(None, [Fetch(request)])
    case Some(instances) =>
      var routed := [Fetch(request), Route(RouterSource(lb.serviceId, request), Wrap(instances))];
      match GetInstanceResponse(lb, request, instances)
      case NotMatch => Selection(lb.loadBalancer(request), routed + [Fallback(request)])
      case Final(response) =>
        assert routed + [] == routed;
        Selection(Some(response), routed)
  }

  /**
   * When a list was emitted, the router is called exactly once, with the service
   * id, the request and every instance, and the fallback is called exactly when
   * the router answered "unmatched".
   */
  lemma ChooseRoutesOnce<I, Q>(lb: RouterReactorLoadbalancer<I, Q>, request: Q)
    requires ChooseCastable(lb, request)
    requires FirstList(lb, request).Some?
    ensures RoutedOnce(Choose(lb, request).calls, RouterSource(lb.serviceId, request), Wrap(FirstList(lb, request).value))
    ensures NoFallback(Choose(lb, request).calls) <==> !Answer(lb, request, FirstList(lb, request).value).Unmatched?
  {
    var calls := Choose(lb, request).calls;
    assert calls[1] == Route(RouterSource(lb.serviceId, request), Wrap(FirstList(lb, request).value));
    if Answer(lb, request, FirstList(lb, request).value).Unmatched? {
      assert calls[2].Fallback?;
    }
  }

  // ---------------------------------------------------------------------------
  // Properties of a whole selection

  /**
   * When the router picks the k-th location it was given, the selection returns
   * the k-th instance of the first emitted list, and the fallback is not called.
   */
  lemma ChooseMatched<I, Q>(lb: RouterReactorLoadbalancer<I, Q>, request: Q, k: nat)
    requires FirstList(lb, request).Some?
    requires k < |FirstList(lb, request).value|
    requires Answer(lb, request, FirstList(lb, request).value) == Service(Wrap(FirstList(lb, request).value)[k])
    ensures Choose(lb, request).response == Some(Default(FirstList(lb, request).value[k]))
    ensures NoFallback(Choose(lb, request).calls)
  {
  }

  /**
   * When the router picks one of its candidates, the selected instance is one of
   * the instances the supplier emitted first.
   */
  lemma ChooseSelectsCandidate<I, Q>(lb: RouterReactorLoadbalancer<I, Q>, request: Q)
    requires FirstList(lb, request).Some?
    requires var answer := Answer(lb, request, FirstList(lb, request).value);
      answer.Service? && answer.location in Wrap(FirstList(lb, request).value)
    ensures var r := Choose(lb, request).response;
      r.Some? && r.value.Default? && r.value.server in FirstList(lb, request).value
  {
  }

  /**
   * An empty first list is still routed: the router sees no locations, and its
   * "unmatched" or "unavailable" answer is honoured.
   */
  lemma EmptyListRouted<I, Q>(lb: RouterReactorLoadbalancer<I, Q>, request: Q)
    requires FirstList(lb, request) == Some([])
    requires ChooseCastable(lb, request)
    ensures RoutedOnce(Choose(lb, request).calls, RouterSource(lb.serviceId, request), [])
    ensures lb.concept(RouterSource(lb.serviceId, request), []).Unmatched? ==>
      Choose(lb, request).response == lb.loadBalancer(request)
    ensures lb.concept(RouterSource(lb.serviceId, request), []).Unavailable? ==>
      Choose(lb, request).response == Some(Empty) && NoFallback(Choose(lb, request).calls)
  {
    ChooseRoutesOnce(lb, request);
  }

  /**
   * "Unavailable" does not depend on the pool: whatever the two first lists, if
   * the router answers "unavailable" to both, both selections give the same empty
   * response and neither calls the fallback.
   */
  lemma UnavailableIgnoresPool<I, Q>(lb1: RouterReactorLoadbalancer<I, Q>, lb2: RouterReactorLoadbalancer<I, Q>, request: Q)
    requires FirstList(lb1, request).Some? && FirstList(lb2, request).Some?
    requires Answer(lb1, request, FirstList(lb1, request).value).Unavailable?
    requires Answer(lb2, request, FirstList(lb2, request).value).Unavailable?
    ensures Choose(lb1, request).response == Choose(lb2, request).response == Some(Empty)
    ensures NoFallback(Choose(lb1, request).calls) && NoFallback(Choose(lb2, request).calls)
  {
  }

  /**
   * Only the first emitted list matters: two balancers that agree on everything
   * but the lists their suppliers emit after the first make the same selection.
   */
  lemma OnlyFirstListUsed<I, Q>(lb1: RouterReactorLoadbalancer<I, Q>, lb2: RouterReactorLoadbalancer<I, Q>, request: Q)
    requires lb1.serviceId == lb2.serviceId && lb1.concept == lb2.concept && lb1.loadBalancer == lb2.loadBalancer
    requires FirstList(lb1, request) == FirstList(lb2, request)
    requires ChooseCastable(lb1, request)
    ensures ChooseCastable(lb2, request)
    ensures Choose(lb1, request) == Choose(lb2, request)
  {
  }

  /** The fallback balancer is called exactly when a list was emitted and the router answered "unmatched". */
  lemma FallbackOnlyWhenUnmatched<I, Q>(lb: RouterReactorLoadbalancer<I, Q>, request: Q)
    requires ChooseCastable(lb, request)
    ensures !NoFallback(Choose(lb, request).calls) <==>
      FirstList(lb, request).Some? && Answer(lb, request, FirstList(lb, request).value).Unmatched?
  {
    if FirstList(lb, request).Some? {
      ChooseRoutesOnce(lb, request);
    }
  }
}
