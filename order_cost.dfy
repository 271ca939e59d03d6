/** The order cost and validity engine: service eligibility and cost,
    parameter cost, recalculation of a stored order, revalidation of the
    orders a read returns, and the per-service cap checked when an order is
    added to a cart. */
module OrderCost {
  import opened Optional
  import opened Statuses
  import opened Records

  // ---------------------------------------------------------------------
  // Service cost
  // ---------------------------------------------------------------------

  /** A user attribute that is absent or empty is unset; an unset attribute
      never excludes the user from a service. */
  predicate Unset(attr: Option<string>) {
    attr.None? || attr.value == ""
  }

  /** One eligibility list: the attribute is unset, the list holds the
      wildcard `*`, or the list holds the attribute. */
  predicate AttributeAllowed(attr: Option<string>, allowed: seq<string>) {
    Unset(attr) || "*" in allowed || attr.value in allowed
  }

  /** A special service is open only to the users it lists. */
  predicate SpecialServiceAllows(service: Service, user: Requester) {
    !service.isSpecialService || user.daiictId in service.specialServiceUsers
  }

  /** The batch, programme and user-status checks together. */
  predicate UserAllowed(service: Service, user: Requester) {
    && AttributeAllowed(user.info.batch, service.allowedBatches)
    && AttributeAllowed(user.info.programme, service.allowedProgrammes)
    && AttributeAllowed(user.info.userStatus, service.allowedUserStatus)
  }

  /** Everything `calculateServiceCost` checks before it prices the request. */
  predicate Eligible(service: Service, units: int, user: Requester) {
    && SpecialServiceAllows(service, user)
    && UserAllowed(service, user)
    && service.isActive
    && 0 < units <= service.maxUnits
  }

  /** The cost of `units` units of `service` for `user`, or the sentinel -1. */
  function CalculateServiceCost(service: Service, units: int, user: Requester): (cost: int)
    ensures !Eligible(service, units, user) ==> cost == -1
    ensures cost != -1 ==> service.isActive && 0 < units <= service.maxUnits && cost == units * service.baseCharge
    ensures service.baseCharge >= 0 ==> (cost == -1 <==> !Eligible(service, units, user))
  {
    if !Eligible(service, units, user) then -1 else units * service.baseCharge
  }

  /** An absent or empty user attribute never excludes: a user with all
      three attributes unset is priced by the special-service list, the
      active flag and the unit bounds alone. */
  lemma UnsetAttributesNeverExclude(service: Service, units: int, user: Requester)
    requires Unset(user.info.batch) && Unset(user.info.programme) && Unset(user.info.userStatus)
    ensures CalculateServiceCost(service, units, user) ==
      if SpecialServiceAllows(service, user) && service.isActive && 0 < units <= service.maxUnits
      then units * service.baseCharge else -1
  {
  }

  /** A service whose three lists hold the wildcard, and which is not special,
      prices every user alike. */
  lemma WildcardAdmitsEveryone(service: Service, units: int, user: Requester, other: Requester)
    requires "*" in service.allowedBatches && "*" in service.allowedProgrammes && "*" in service.allowedUserStatus
    requires !service.isSpecialService
    ensures CalculateServiceCost(service, units, user) == CalculateServiceCost(service, units, other)
  {
  }

  // ---------------------------------------------------------------------
  // Parameter cost
  // ---------------------------------------------------------------------

  /** A parameter id the engine accepts: it exists, it is active, and, when
      the service restricts its parameters, it is in that list. */
  predicate Admissible(id: Id, catalog: map<Id, Parameter>, available: Option<seq<Id>>) {
    id in catalog && catalog[id].isActive && (available.None? || id in available.value)
  }

  predicate AllAdmissible(refs: seq<ParamRef>, catalog: map<Id, Parameter>, available: Option<seq<Id>>) {
    forall i | 0 <= i < |refs| :: Admissible(refs[i].id, catalog, available)
  }

  /** The base charge of one parameter (0 for an id the catalog lacks). */
  function Charge(id: Id, catalog: map<Id, Parameter>): int {
    if id in catalog then catalog[id].baseCharge else 0
  }

  /** The sum of the base charges of `refs`, in list order. */
  function Charges(refs: seq<ParamRef>, catalog: map<Id, Parameter>): int {
    if refs == [] then 0
    else Charges(refs[..|refs| - 1], catalog) + Charge(refs[|refs| - 1].id, catalog)
  }

  /** What `calculateParameterCost` returns: -1 when some parameter is not
      admissible, otherwise the units times the summed base charges. */
  function ParameterCost(refs: seq<ParamRef>, units: int, catalog: map<Id, Parameter>, available: Option<seq<Id>>): int {
    if AllAdmissible(refs, catalog, available) then Charges(refs, catalog) * units else -1
  }

  /** The fail-fast loop of `calculateParameterCost`. */
  method CalculateParameterCost(refs: seq<ParamRef>, units: int, catalog: map<Id, Parameter>, available: Option<seq<Id>>)
    returns (cost: int)
    ensures cost == ParameterCost(refs, units, catalog, available)
  {
    var total := 0;
    var i := 0;
    while i < |refs|
      invariant 0 <= i <= |refs|
      invariant AllAdmissible(refs[..i], catalog, available)
      invariant total == Charges(refs[..i], catalog)
    {
      var id := refs[i].id;
      if id !in catalog || !catalog[id].isActive || (available.Some? && id !in available.value) {
        assert !Admissible(refs[i].id, catalog, available);
        return -1;
      }
      assert refs[..i + 1][..i] == refs[..i];
      total := total + catalog[id].baseCharge;
      i := i + 1;
    }
    assert refs[..i] == refs;
    cost := total * units;
  }

  /** Every parameter list written with bare ids. */
  function AsIds(refs: seq<ParamRef>): (ids: seq<ParamRef>)
    ensures |ids| == |refs|
    ensures forall i | 0 <= i < |refs| :: ids[i] == ParamId(refs[i].id)
  {
    seq(|refs|, i requires 0 <= i < |refs| => ParamId(refs[i].id))
  }

  lemma {:induction false} ChargesOfIds(refs: seq<ParamRef>, catalog: map<Id, Parameter>)
    ensures Charges(AsIds(refs), catalog) == Charges(refs, catalog)
  {
    if refs != [] {
      var n := |refs| - 1;
      assert AsIds(refs)[..n] == AsIds(refs[..n]);
      ChargesOfIds(refs[..n], catalog);
    }
  }

  /** A parameter given as a document or as a bare id costs the same. */
  lemma DocumentsAndIdsCostTheSame(refs: seq<ParamRef>, units: int, catalog: map<Id, Parameter>, available: Option<seq<Id>>)
    ensures ParameterCost(AsIds(refs), units, catalog, available) == ParameterCost(refs, units, catalog, available)
  {
    ChargesOfIds(refs, catalog);
  }

  lemma {:induction false} ChargesNonNegative(refs: seq<ParamRef>, catalog: map<Id, Parameter>)
    requires forall id | id in catalog :: catalog[id].baseCharge >= 0
    ensures Charges(refs, catalog) >= 0
  {
    if refs != [] {
      ChargesNonNegative(refs[..|refs| - 1], catalog);
    }
  }

  /** With non-negative charges and a positive unit count, -1 is returned
      exactly when a parameter is missing, inactive or not available. */
  lemma ParameterCostSentinel(refs: seq<ParamRef>, units: int, catalog: map<Id, Parameter>, available: Option<seq<Id>>)
    requires forall id | id in catalog :: catalog[id].baseCharge >= 0
    requires units > 0
    ensures ParameterCost(refs, units, catalog, available) == -1 <==>
      exists i | 0 <= i < |refs| :: !Admissible(refs[i].id, catalog, available)
  {
    ChargesNonNegative(refs, catalog);
  }

  /** A restriction list only ever rejects more; it never changes a price. */
  lemma RestrictionOnlyRejects(refs: seq<ParamRef>, units: int, catalog: map<Id, Parameter>, available: seq<Id>)
    ensures ParameterCost(refs, units, catalog, Some(available)) != -1 ==>
      ParameterCost(refs, units, catalog, Some(available)) == ParameterCost(refs, units, catalog, None)
  {
  }

  // ---------------------------------------------------------------------
  // Recalculation of a stored order
  // ---------------------------------------------------------------------

  /** The order after `recalculateOrderCost` has been given the two costs. */
  function WithCosts(order: Order, parameterCost: int, serviceCost: int): (r: Order)
    ensures r.parameterCost == parameterCost && r.serviceCost == serviceCost
    ensures r.status == InvalidOrder <==> parameterCost == -1 || serviceCost == -1 || order.status == InvalidOrder
    ensures r.status != order.status ==> r.status == InvalidOrder
    ensures parameterCost != -1 && serviceCost != -1 ==>
      r.status == order.status && r.totalCost == parameterCost + serviceCost && r.validityErrors == order.validityErrors
    ensures parameterCost == -1 && serviceCost != -1 ==>
      r.totalCost == serviceCost && r.validityErrors == order.validityErrors + [InvalidParameter]
    ensures parameterCost != -1 && serviceCost == -1 ==>
      r.totalCost == parameterCost && r.validityErrors == order.validityErrors + [InvalidService]
    ensures parameterCost == -1 && serviceCost == -1 ==>
      r.totalCost == 0 && r.validityErrors == order.validityErrors + [InvalidParameter, InvalidService]
    ensures r.(parameterCost := order.parameterCost, serviceCost := order.serviceCost, totalCost := order.totalCost,
               status := order.status, validityErrors := order.validityErrors) == order
  {
    order.(
      parameterCost := parameterCost,
      serviceCost := serviceCost,
      totalCost := (if parameterCost == -1 then 0 else parameterCost) + (if serviceCost == -1 then 0 else serviceCost),
      status := if parameterCost == -1 || serviceCost == -1 then InvalidOrder else order.status,
      validityErrors := order.validityErrors
        + (if parameterCost == -1 then [InvalidParameter] else [])
        + (if serviceCost == -1 then [InvalidService] else []))
  }

  /** The order `recalculateOrderCost` produces; it never passes the
      service's parameter restriction to the parameter cost. */
  function Recalculated(order: Order, user: Requester, services: map<Id, Service>, catalog: map<Id, Parameter>): Order
    requires order.service in services
  {
    WithCosts(order,
      ParameterCost(order.parameters, order.unitsRequested, catalog, None),
      CalculateServiceCost(services[order.service], order.unitsRequested, user))
  }

  /** `recalculateOrderCost`, field by field.  A service that no longer
      exists makes the source throw while pricing the service: `None`. */
  method RecalculateOrderCost(order: Order, user: Requester, services: map<Id, Service>, catalog: map<Id, Parameter>)
    returns (result: Option<Order>)
    ensures result.None? <==> order.service !in services
    ensures result.Some? ==> result.value == Recalculated(order, user, services, catalog)
  {
    var parameterCost := CalculateParameterCost(order.parameters, order.unitsRequested, catalog, None);
    if order.service !in services {
      return None;
    }
    var service := services[order.service];
    var r := order.(parameterCost := parameterCost);
    r := r.(serviceCost := CalculateServiceCost(service, order.unitsRequested, user));
    r := r.(totalCost := 0);
    if r.parameterCost == -1 {
      r := r.(status := InvalidOrder, validityErrors := r.validityErrors + [InvalidParameter]);
    } else {
      r := r.(totalCost := r.totalCost + r.parameterCost);
    }
    if r.serviceCost == -1 {
      r := r.(status := InvalidOrder, validityErrors := r.validityErrors + [InvalidService]);
    } else {
      r := r.(totalCost := r.totalCost + r.serviceCost);
    }
    result := Some(r);
  }

  /** Recalculating an unchanged order again gives the same status and costs;
      only the error list grows, by the same reasons once more. */
  lemma RecalculationIsStable(order: Order, user: Requester, services: map<Id, Service>, catalog: map<Id, Parameter>)
    requires order.service in services
    ensures var once := Recalculated(order, user, services, catalog);
      var twice := Recalculated(once, user, services, catalog);
      && twice.status == once.status
      && twice.totalCost == once.totalCost
      && twice.serviceCost == once.serviceCost
      && twice.parameterCost == once.parameterCost
      && twice.validityErrors == once.validityErrors + once.validityErrors[|order.validityErrors|..]
  {
  }

  // ---------------------------------------------------------------------
  // Revalidation of the orders a read returns
  // ---------------------------------------------------------------------

  /** One order as `validateOrder` returns it: recalculated when it is
      still before placement, otherwise untouched. */
  function Revalidated(order: Order, user: Requester, services: map<Id, Service>, catalog: map<Id, Parameter>): Order
    requires PrePlacement(order.status) ==> order.service in services
  {
    if PrePlacement(order.status) then Recalculated(order, user, services, catalog) else order
  }

  /** The services of the orders that will be recalculated all exist (a
      missing one makes the source throw). */
  predicate ServicesKnown(orders: seq<Order>, services: map<Id, Service>) {
    forall i | 0 <= i < |orders| :: PrePlacement(orders[i].status) ==> orders[i].service in services
  }

  /** The array branch of `validateOrder`; `None` when a recalculated
      order's service no longer exists (the source throws). */
  method ValidateOrders(orders: seq<Order>, user: Requester, services: map<Id, Service>, catalog: map<Id, Parameter>)
    returns (validated: Option<seq<Order>>)
    ensures validated.None? <==> !ServicesKnown(orders, services)
    ensures validated.Some? ==> |validated.value| == |orders|
    ensures validated.Some? ==>
      forall i | 0 <= i < |orders| :: validated.value[i] == Revalidated(orders[i], user, services, catalog)
    ensures validated.Some? ==>
      forall i | 0 <= i < |orders| :: !PrePlacement(orders[i].status) ==> validated.value[i] == orders[i]
    ensures validated.Some? ==>
      forall i | 0 <= i < |orders| :: validated.value[i].status == orders[i].status || validated.value[i].status == InvalidOrder
  {
    var done: seq<Order> := [];
    var i := 0;
    while i < |orders|
      invariant 0 <= i <= |orders|
      invariant |done| == i
      invariant forall k | 0 <= k < i :: PrePlacement(orders[k].status) ==> orders[k].service in services
      invariant forall k | 0 <= k < i :: done[k] == Revalidated(orders[k], user, services, catalog)
    {
      if orders[i].status == Unplaced || orders[i].status == InvalidOrder {
        var recalculated := RecalculateOrderCost(orders[i], user, services, catalog);
        if recalculated.None? {
          assert !(PrePlacement(orders[i].status) ==> orders[i].service in services);
          return None;
        }
        done := done + [recalculated.value];
      } else {
        done := done + [orders[i]];
      }
      i := i + 1;
    }
    validated := Some(done);
  }

  /** What a read hands to `validateOrder`: a list, one document, or nothing. */
  datatype Orders = Many(list: seq<Order>) | One(order: Order) | Undefined

  /** `validateOrder`: keeps the shape of its argument; `None` when a
      recalculated order's service no longer exists (the source throws). */
  method ValidateOrder(orders: Orders, user: Requester, services: map<Id, Service>, catalog: map<Id, Parameter>)
    returns (r: Option<Orders>)
    ensures orders.Undefined? ==> r == Some(Undefined)
    ensures orders.One? ==>
      (r.None? <==> PrePlacement(orders.order.status) && orders.order.service !in services)
    ensures orders.One? && r.Some? ==> r.value == One(Revalidated(orders.order, user, services, catalog))
    ensures orders.Many? ==> (r.None? <==> !ServicesKnown(orders.list, services))
    ensures orders.Many? && r.Some? ==> r.value.Many? && |r.value.list| == |orders.list|
    ensures orders.Many? && r.Some? ==>
      forall i | 0 <= i < |orders.list| :: r.value.list[i] == Revalidated(orders.list[i], user, services, catalog)
  {
    match orders
    case Many(list) =>
      var validated := ValidateOrders(list, user, services, catalog);
      r := if validated.Some? then Some(Many(validated.value)) else None;
    case One(order) =>
      if order.status == Unplaced || order.status == InvalidOrder {
        var recalculated := RecalculateOrderCost(order, user, services, catalog);
        r := if recalculated.Some? then Some(One(recalculated.value)) else None;
      } else {
        r := Some(One(order));
      }
    case Undefined =>
      r := Some(Undefined);
  }

  // ---------------------------------------------------------------------
  // Per-service cap when an order is added
  // ---------------------------------------------------------------------

  /** How many entries of `ids` equal `x`. */
  function CountOf(ids: seq<Id>, x: Id): nat {
    if ids == [] then 0
    else CountOf(ids[..|ids| - 1], x) + (if ids[|ids| - 1] == x then 1 else 0)
  }

  /** The count is the multiplicity of `x` in the list. */
  lemma {:induction false} CountOfIsMultiplicity(ids: seq<Id>, x: Id)
    ensures CountOf(ids, x) == multiset(ids)[x]
  {
    if ids != [] {
      var n := |ids| - 1;
      assert ids == ids[..n] + [ids[n]];
      CountOfIsMultiplicity(ids[..n], x);
    }
  }

  /** `validateAddedOrder`: the requested units plus the number of orders of
      the same service already in the cart must not exceed `maxUnits`.  The
      existing orders are counted, not their units. */
  method ValidateAddedOrder(cartServices: seq<Id>, serviceId: Id, maxUnits: int, unitsRequested: int)
    returns (ok: bool)
    ensures ok <==> unitsRequested + multiset(cartServices)[serviceId] <= maxUnits
  {
    var count := unitsRequested;
    var i := 0;
    while i < |cartServices|
      invariant 0 <= i <= |cartServices|
      invariant count == unitsRequested + CountOf(cartServices[..i], serviceId)
    {
      assert cartServices[..i + 1][..i] == cartServices[..i];
      if cartServices[i] == serviceId {
        count := count + 1;
      }
      i := i + 1;
    }
    assert cartServices[..i] == cartServices;
    CountOfIsMultiplicity(cartServices, serviceId);
    ok := count <= maxUnits;
  }
}
