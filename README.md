# Router-driven load balancer

A model of `RouterReactorLoadbalancer`, a reactive load balancer for one logical
service. For each request it takes the first instance list the service's
instance-list supplier emits and wraps every instance as a routing location. It
then asks a router (a `RouterConcept`) to pick a location, using a source built
from the service id and the request. The router gives one of three answers:

- `UNMATCHED`: no rule applies. The balancer hands the request to its fallback
  load balancer and returns whatever that one returns.
- `UNAVAILABLE`: a rule applies but its target may not be used. The result is an
  empty response, and the fallback is not consulted.
- a location: the result is a `DefaultResponse` that carries the instance the
  location wraps. The fallback is not consulted.

The Java class is immutable after construction. Its `choose` is a chain of
reactive `map`/`flatMap` steps, and `getInstanceResponse` is a stream `map`
followed by an if/else. The model is therefore pure. It has these parts:

- `Wrappers`: the optional value used for a reactive stream with at most one element.
- `Loadbalancer`: the model itself.
  - Response, router location, router source and the balancer's fields are datatypes.
  - The supplier, router and fallback balancer are fields of function type.
  - `Choose` returns the response together with the calls it made into those
    collaborators, in order. This is how "the fallback is never invoked" and "the
    router is invoked exactly once" are stated.
- `OrdersScenario`: the balancer instantiated for a three-instance
  "orders-service" with one region rule.

The source compares answers by reference against shared marker objects. Three
constructors replace those markers:

- `Location.Unmatched` and `Location.Unavailable` stand for the router's
  `UNMATCHED` and `UNAVAILABLE`.
- `InstanceResponse.NotMatch` stands for the balancer's package-private static `NOT_MATCH`
  empty response.

`Location.Foreign` stands for a location of some other class. Casting one back
would throw, so every caller is required to avoid it.

A service with no configured supplier gets the no-op supplier, which emits no
list. `choose` then completes with no response, and neither the router nor the
fallback runs (`FirstList`, `Choose`).

## Model

| member | source | states |
|---|---|---|
| `Loadbalancer.Wrap` | src/main/java/com/github/linyuzai/router/loadbalancer/RouterReactorLoadbalancer.java:69-71 | wrapping is one to one and order preserving: same length, and the k-th location wraps the k-th instance; nothing is filtered out |
| `Loadbalancer.UnwrapWrap` | src/main/java/com/github/linyuzai/router/loadbalancer/RouterReactorLoadbalancer.java:69-71 | unwrapping every wrapped location gives back exactly the original instance list, in order |
| `Loadbalancer.WrapInjective` | src/main/java/com/github/linyuzai/router/loadbalancer/RouterReactorLoadbalancer.java:69-71 | two instance lists wrap to the same location list if and only if they are equal, so no information is lost |
| `Loadbalancer.CandidateWrapsInstance` | src/main/java/com/github/linyuzai/router/loadbalancer/RouterReactorLoadbalancer.java:79-80 | any location taken from the wrapped list unwraps to one of the supplied instances |
| `Loadbalancer.FirstList` | src/main/java/com/github/linyuzai/router/loadbalancer/RouterReactorLoadbalancer.java:46-49 | the list routed is the first one the configured supplier emits; there is none when the supplier emits nothing or no supplier is configured |
| `Loadbalancer.GetInstanceResponse` | src/main/java/com/github/linyuzai/router/loadbalancer/RouterReactorLoadbalancer.java:68-83 | the result is the not-matched marker if and only if the router answered unmatched, and a final empty response if and only if it answered unavailable; when the router picks the k-th location, the result carries the k-th instance; a response carrying an instance always comes from the router choosing that instance's location |
| `Loadbalancer.Choose` | src/main/java/com/github/linyuzai/router/loadbalancer/RouterReactorLoadbalancer.java:45-58 | the exact calls made, in order: the supplier first; with no emitted list nothing else, no response, and neither router nor fallback; otherwise the router once, with the service id, the request and every instance, then the fallback once and only on an unmatched answer (no retry, exactly one branch); on unmatched the fallback's result is returned unmodified, unavailable gives an empty response, and a chosen location gives its instance |
| `Loadbalancer.ChooseRoutesOnce` | src/main/java/com/github/linyuzai/router/loadbalancer/RouterReactorLoadbalancer.java:51-58 | when a list was emitted, the router is called exactly once with the source built from the service id and the request, and the fallback is not called unless the router answered unmatched |
| `Loadbalancer.ChooseMatched` | src/main/java/com/github/linyuzai/router/loadbalancer/RouterReactorLoadbalancer.java:78-82 | when the router picks the k-th location, `choose` returns the k-th instance of the first emitted list, and the fallback is never called |
| `Loadbalancer.ChooseSelectsCandidate` | src/main/java/com/github/linyuzai/router/loadbalancer/RouterReactorLoadbalancer.java:73-81 | when the router picks one of its candidate locations, the returned instance is one of the instances first emitted |
| `Loadbalancer.EmptyListRouted` | src/main/java/com/github/linyuzai/router/loadbalancer/RouterReactorLoadbalancer.java:69-77 | an empty first list is still routed once, over no locations; an unmatched answer returns the fallback's result, and an unavailable answer returns an empty response without the fallback |
| `Loadbalancer.UnavailableIgnoresPool` | src/main/java/com/github/linyuzai/router/loadbalancer/RouterReactorLoadbalancer.java:76-77 | an unavailable answer yields the empty response and no fallback call, whatever instance lists were supplied |
| `Loadbalancer.OnlyFirstListUsed` | src/main/java/com/github/linyuzai/router/loadbalancer/RouterReactorLoadbalancer.java:48-50 | two balancers that differ only in the lists their suppliers emit after the first make identical selections, with identical calls |
| `Loadbalancer.FallbackOnlyWhenUnmatched` | src/main/java/com/github/linyuzai/router/loadbalancer/RouterReactorLoadbalancer.java:51-58 | the fallback balancer is called if and only if a list was emitted and the router answered unmatched for it |
| `OrdersScenario.EuGoesToB` | src/main/java/com/github/linyuzai/router/loadbalancer/RouterReactorLoadbalancer.java:78-82 | over instances A, B, C, a rule sending region=eu to B yields B, and the fallback is untouched |
| `OrdersScenario.UsFallsBack` | src/main/java/com/github/linyuzai/router/loadbalancer/RouterReactorLoadbalancer.java:53-54 | a request that matches no rule yields the fallback's choice A, and the fallback is called |
| `OrdersScenario.EuWithoutBIsUnavailable` | src/main/java/com/github/linyuzai/router/loadbalancer/RouterReactorLoadbalancer.java:76-77 | when the rule's target B is not offered, the answer is an empty response, and the fallback is not called |

## Left out

- Reactor asynchrony (`Mono`, `Flux`, `next`, `flatMap`, `Mono.from`) is modelled synchronously. The supplier gives a finite sequence of emitted lists and the result is an optional response. Infinite emissions, scheduling and cancellation are not modelled.
- The fallback balancer's publisher is modelled as producing at most one response, which is what `Mono.from` keeps.
- The lazy provider lookup through `LoadBalancerClientFactory.getLazyProvider` and `getIfAvailable` is modelled only by its effect: a configured supplier or none.
- The router's matching algorithm and the fallback balancer's strategy are not part of this model. Both are arbitrary functions; `OrdersScenario` fixes one of each for illustration.
- `LoadbalancerServiceRouterLocation`, `LoadbalancerRequestRouterSource` and `RouterConcept` are not part of this model; only the behaviour used here is modelled (a location wraps an instance and gives it back; a source holds the service id and the request).
- Failures raised by the supplier, the router or the fallback are not modelled; in the source they propagate to the caller unchanged.
- `Loadbalancer.GetInstanceResponse`: the `ClassCastException` raised when the router returns a location of another class is not modelled. The requirement `Castable` excludes that answer instead.
- `Loadbalancer.Choose`: carries the same exclusion, through `ChooseCastable`.
- The object identity of the markers is replaced by distinct constructors, so a fresh empty response can never be mistaken for `NOT_MATCH`.
- The Spring auto-configuration (`RouterLoadbalancerAutoConfiguration`) only declares a bean and is not modelled.
