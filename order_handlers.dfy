/** The order request handlers of the workflow: the read query of
    `getAllOrders`, and `addOrder`, `deleteOrder`, `updateOrder`,
    `changeStatus` and `cancelOrder` as methods of a store that holds the
    orders and carts in maps.  Permission decisions of the access-control
    engine arrive as booleans; mail, notifications and response bodies are
    left out, each handler answers with its response code. */
module OrderHandlers {
  import opened Optional
  import opened Statuses
  import opened Records
  import opened OrderCost
  import opened CartAggregate

  // ---------------------------------------------------------------------
  // getAllOrders: the status filter rewrite
  // ---------------------------------------------------------------------

  datatype StatusFilter = AnyStatus | StatusIs(status: int) | StatusAtLeast(bound: int)

  /** The part of the database query this core builds. */
  datatype OrderQuery = OrderQuery(status: StatusFilter, requestedBy: Option<Id>)

  predicate Matches(q: OrderQuery, o: Order) {
    && (match q.status
        case AnyStatus => true
        case StatusIs(s) => o.status == s
        case StatusAtLeast(b) => o.status >= b)
    && (q.requestedBy.None? || o.requestedBy == q.requestedBy.value)
  }

  /** The query `getAllOrders` runs (`None` answers FORBIDDEN).  A reader of
      any order sees only placed orders: a requested status below `placed`
      becomes -1, which no order has, and no requested status becomes
      `>= placed`.  A reader of own orders is pinned to their own id. */
  function ReadAllQuery(readAny: bool, readOwn: bool, statusFilter: Option<int>, daiictId: Id): (q: Option<OrderQuery>)
    ensures q.None? <==> !readAny && !readOwn
    ensures readAny ==> forall o :: Matches(q.value, o) && IsOrderStatus(o.status) ==> o.status >= Placed
    ensures readAny && statusFilter.None? ==> forall o :: Matches(q.value, o) <==> o.status >= Placed
    ensures readAny && statusFilter.Some? && statusFilter.value >= Placed ==>
      forall o :: Matches(q.value, o) <==> o.status == statusFilter.value
    ensures !readAny && readOwn ==> forall o :: Matches(q.value, o) ==> o.requestedBy == daiictId
    ensures !readAny && readOwn ==> forall o: Order :: o.requestedBy == daiictId ==>
      (Matches(q.value, o) <==> statusFilter.None? || o.status == statusFilter.value)
  {
    if readAny then
      var status := match statusFilter
        case None => StatusAtLeast(Placed)
        case Some(s) => StatusIs(if s < Placed then -1 else s);
      Some(OrderQuery(status, None))
    else if readOwn then
      var status := match statusFilter
        case None => AnyStatus
        case Some(s) => StatusIs(s);
      Some(OrderQuery(status, Some(daiictId)))
    else
      None
  }

  // ---------------------------------------------------------------------
  // Status guards
  // ---------------------------------------------------------------------

  /** The guard of `changeStatus`: a hold from strictly between `placed`
      and `ready`, or any change from `processing`. */
  predicate StatusChangeGuard(current: int, target: int) {
    var holdOrder := target == OnHold && Placed < current < Ready;
    holdOrder || current == Processing
  }

  /** The guard together with the `switch`, which knows only the targets
      `ready` and `onHold`. */
  predicate StatusChangeAllowed(current: int, target: int) {
    StatusChangeGuard(current, target) && (target == Ready || target == OnHold)
  }

  /** The guard of `cancelOrder`. */
  predicate CancelAllowed(current: int) {
    Placed <= current < Completed
  }

  /** The `changeStatus` guard spelled out: a processing order may become
      ready or go on hold, an order on hold may only be put on hold again,
      and no change moves an order back.  The onHold cases rest on `OnHold`
      lying between `Processing` and `Ready`. */
  lemma StatusChangeCases(current: int, target: int)
    ensures StatusChangeAllowed(current, target) <==>
      (current == Processing && (target == Ready || target == OnHold)) || (current == OnHold && target == OnHold)
    ensures StatusChangeAllowed(current, target) ==> current <= target
  {
  }

  /** The `cancelOrder` guard spelled out: exactly the placed, processing,
      held and ready orders may be cancelled.  That a cancelled order is
      not among them rests on `Cancelled` being numbered after `Completed`. */
  lemma CancelCases(current: int)
    ensures CancelAllowed(current) <==>
      current == Placed || current == Processing || current == OnHold || current == Ready
  {
  }

  /** No handler moves a cancelled or completed order: neither admin guard
      admits it, and the owner may neither edit, resume nor delete it.  The
      cancelled half rests on `Cancelled` being numbered after `Completed`. */
  lemma TerminalStatuses(target: int)
    ensures !StatusChangeAllowed(Cancelled, target) && !CancelAllowed(Cancelled)
    ensures !StatusChangeAllowed(Completed, target) && !CancelAllowed(Completed)
    ensures !PrePlacement(Cancelled) && !PrePlacement(Completed)
  {
  }

  // ---------------------------------------------------------------------
  // Records the handlers write
  // ---------------------------------------------------------------------

  /** The body of an `addOrder` request. */
  datatype NewOrderRequest = NewOrderRequest(service: Id, parameters: seq<ParamRef>, unitsRequested: int, comment: Option<string>)

  /** The body of an owner's `updateOrder` request; `None` is a field the body omits. */
  datatype OrderPatch = OrderPatch(comment: Option<string>, unitsRequested: Option<int>, parameters: Option<seq<ParamRef>>)

  function NewOrder(caller: Requester, request: NewOrderRequest, serviceCost: int, parameterCost: int, now: int): (o: Order)
    ensures o.status == Unplaced && o.requestedBy == caller.daiictId && o.cartId == caller.cartId
  {
    Order(
      requestedBy := caller.daiictId,
      cartId := caller.cartId,
      service := request.service,
      parameters := request.parameters,
      unitsRequested := request.unitsRequested,
      serviceCost := serviceCost,
      parameterCost := parameterCost,
      totalCost := 0,
      status := Unplaced,
      validityErrors := [],
      statusChangeTime := map[],
      comment := request.comment,
      holdReason := None,
      cancelReason := None,
      createdOn := now,
      lastModified := None,
      lastModifiedBy := None)
  }

  /** The service ids of the cart's orders as the populated cart shows them. */
  function MemberServices(orders: map<Id, Order>, ids: seq<Id>): (services: seq<Id>)
    ensures |services| <= |ids|
  {
    if ids == [] then []
    else
      var last := ids[|ids| - 1];
      MemberServices(orders, ids[..|ids| - 1]) + (if last in orders then [orders[last].service] else [])
  }

  /** Every listed order that exists still has its service; the cap loop
      reads the service of each one and fails on a deleted service. */
  predicate MemberServicesKnown(orders: map<Id, Order>, ids: seq<Id>, services: map<Id, Service>) {
    forall k | 0 <= k < |ids| && ids[k] in orders :: orders[ids[k]].service in services
  }

  /** The per-service cap of `addOrder`. */
  predicate CapAllows(orders: map<Id, Order>, cart: Cart, serviceId: Id, maxUnits: int, unitsRequested: int) {
    unitsRequested + multiset(MemberServices(orders, cart.orders))[serviceId] <= maxUnits
  }

  /** The cap counts orders, not their units: a cart that holds one 3-unit
      order of a service with `maxUnits` 5 still accepts 3 more units of it. */
  lemma CapCountsOrders(orders: map<Id, Order>, cart: Cart, existing: Id, serviceId: Id)
    requires cart.orders == [existing] && existing in orders
    requires orders[existing].service == serviceId && orders[existing].unitsRequested == 3
    ensures CapAllows(orders, cart, serviceId, 5, 3)
  {
    assert MemberServices(orders, cart.orders) == [serviceId];
  }

  /** An owner's resume of an order put on hold. */
  function Resumed(order: Order, patch: OrderPatch, daiictId: Id, now: int): (r: Order)
    ensures r.status == Processing && r.comment == patch.comment
    ensures r.lastModifiedBy == Some(daiictId) && r.lastModified == Some(now)
    ensures r.(status := order.status, comment := order.comment,
               lastModifiedBy := order.lastModifiedBy, lastModified := order.lastModified) == order
  {
    order.(status := Processing, comment := patch.comment, lastModifiedBy := Some(daiictId), lastModified := Some(now))
  }

  /** An edit needs the order's service when it changes units or parameters. */
  predicate EditNeedsService(patch: OrderPatch) {
    patch.unitsRequested.Some? || patch.parameters.Some?
  }

  /** An edit is refused when a supplied change prices to -1.  The parameter
      cost is taken with the order's stored units, even when the same edit
      changes them. */
  predicate EditRejected(order: Order, patch: OrderPatch, caller: Requester, services: map<Id, Service>, catalog: map<Id, Parameter>)
    requires EditNeedsService(patch) ==> order.service in services
  {
    || (patch.unitsRequested.Some? &&
        CalculateServiceCost(services[order.service], patch.unitsRequested.value, caller) == -1)
    || (patch.parameters.Some? &&
        ParameterCost(patch.parameters.value, order.unitsRequested, catalog, services[order.service].availableParameters) == -1)
  }

  /** The order after an accepted free edit: supplied fields replace stored
      ones, with the costs of what was supplied. */
  function Edited(order: Order, patch: OrderPatch, caller: Requester, services: map<Id, Service>, catalog: map<Id, Parameter>): (r: Order)
    requires EditNeedsService(patch) ==> order.service in services
    ensures r.status == order.status && r.requestedBy == order.requestedBy && r.cartId == order.cartId
    ensures r.comment == (if patch.comment.Some? then patch.comment else order.comment)
    ensures r.unitsRequested == (if patch.unitsRequested.Some? then patch.unitsRequested.value else order.unitsRequested)
    ensures r.parameters == (if patch.parameters.Some? then patch.parameters.value else order.parameters)
    ensures patch.unitsRequested.Some? ==>
      r.serviceCost == CalculateServiceCost(services[order.service], patch.unitsRequested.value, caller)
    ensures patch.unitsRequested.None? ==> r.serviceCost == order.serviceCost
    // The parameter cost is priced with the units stored before the edit.
    ensures patch.parameters.Some? ==>
      r.parameterCost == ParameterCost(patch.parameters.value, order.unitsRequested, catalog, services[order.service].availableParameters)
    ensures patch.parameters.None? ==> r.parameterCost == order.parameterCost
    ensures !EditRejected(order, patch, caller, services, catalog) && patch.unitsRequested.Some? ==> r.serviceCost != -1
    ensures !EditRejected(order, patch, caller, services, catalog) && patch.parameters.Some? ==> r.parameterCost != -1
    ensures r.(comment := order.comment, unitsRequested := order.unitsRequested, serviceCost := order.serviceCost,
               parameters := order.parameters, parameterCost := order.parameterCost) == order
  {
    order.(
      comment := if patch.comment.Some? then patch.comment else order.comment,
      unitsRequested := if patch.unitsRequested.Some? then patch.unitsRequested.value else order.unitsRequested,
      serviceCost := if patch.unitsRequested.Some?
        then CalculateServiceCost(services[order.service], patch.unitsRequested.value, caller)
        else order.serviceCost,
      parameters := if patch.parameters.Some? then patch.parameters.value else order.parameters,
      parameterCost := if patch.parameters.Some?
        then ParameterCost(patch.parameters.value, order.unitsRequested, catalog, services[order.service].availableParameters)
        else order.parameterCost)
  }

  /** The order after an accepted `changeStatus`. */
  function StatusChanged(order: Order, target: int, reason: Option<string>, actor: Id, now: int): (r: Order)
    ensures r.status == target && target in r.statusChangeTime && r.statusChangeTime[target] == Stamp(now, actor)
    ensures forall s | s in order.statusChangeTime && s != target :: s in r.statusChangeTime && r.statusChangeTime[s] == order.statusChangeTime[s]
    ensures r.holdReason == (if target == OnHold then reason else order.holdReason)
    ensures r.lastModified == Some(now) && r.lastModifiedBy == Some(actor)
    ensures r.(status := order.status, holdReason := order.holdReason, statusChangeTime := order.statusChangeTime,
               lastModified := order.lastModified, lastModifiedBy := order.lastModifiedBy) == order
  {
    order.(
      status := target,
      holdReason := if target == OnHold then reason else order.holdReason,
      statusChangeTime := order.statusChangeTime[target := Stamp(now, actor)],
      lastModified := Some(now),
      lastModifiedBy := Some(actor))
  }

  /** The order after an accepted `cancelOrder`; a body without a reason
      leaves the stored one. */
  function CancelledOrder(order: Order, reason: Option<string>, actor: Id, now: int): (r: Order)
    ensures r.status == Cancelled && Cancelled in r.statusChangeTime && r.statusChangeTime[Cancelled] == Stamp(now, actor)
    ensures forall s | s in order.statusChangeTime && s != Cancelled :: s in r.statusChangeTime && r.statusChangeTime[s] == order.statusChangeTime[s]
    ensures r.cancelReason == (if reason.Some? then reason else order.cancelReason)
    ensures r.lastModified == Some(now) && r.lastModifiedBy == Some(actor)
    ensures r.(status := order.status, cancelReason := order.cancelReason, statusChangeTime := order.statusChangeTime,
               lastModified := order.lastModified, lastModifiedBy := order.lastModifiedBy) == order
  {
    order.(
      status := Cancelled,
      cancelReason := if reason.Some? then reason else order.cancelReason,
      statusChangeTime := order.statusChangeTime[Cancelled := Stamp(now, actor)],
      lastModified := Some(now),
      lastModifiedBy := Some(actor))
  }

  /** `sub` is `ids` with some entries left out and the rest in their order. */
  predicate SubsequenceOf(sub: seq<Id>, ids: seq<Id>)
    decreases |ids|
  {
    if sub == [] then true
    else if ids == [] then false
    else (sub[0] == ids[0] && SubsequenceOf(sub[1..], ids[1..])) || SubsequenceOf(sub, ids[1..])
  }

  /** Every entry of `ids` except `x`, in order (a `$pull`). */
  function Without(ids: seq<Id>, x: Id): (r: seq<Id>)
    ensures multiset(r) == multiset(ids)[x := 0]
    ensures SubsequenceOf(r, ids)
  {
    if ids == [] then []
    else
      assert ids == [ids[0]] + ids[1..];
      var rest := Without(ids[1..], x);
      if ids[0] == x then rest
      else
        assert ([ids[0]] + rest)[1..] == rest;
        [ids[0]] + rest
  }

  /** The cart after the order is taken out of its list. */
  function Pull(cart: Cart, orderId: Id): (c: Cart)
    ensures orderId !in c.orders
    ensures forall id :: id != orderId ==> (id in c.orders <==> id in cart.orders)
    ensures c.status == cart.status && c.statusChangeTime == cart.statusChangeTime
    ensures multiset(c.orders) == multiset(cart.orders)[orderId := 0] && SubsequenceOf(c.orders, cart.orders)
    ensures c.(orders := cart.orders) == cart
  {
    var orders := Without(cart.orders, orderId);
    assert forall id :: id in orders <==> id in multiset(orders);
    cart.(orders := orders)
  }

  /** The cart update `deleteOrder` sends, as written: its only key names no
      field of the cart, so the cart keeps its list. */
  function PullAsWritten(cart: Cart, orderId: Id): Cart {
    cart
  }

  /** As written, a deleted order's id stays in the owner's cart. */
  lemma PullAsWrittenKeepsDeletedId(cart: Cart, orderId: Id)
    requires orderId in cart.orders
    ensures orderId in PullAsWritten(cart, orderId).orders
    ensures orderId !in Pull(cart, orderId).orders
  {
  }

  predicate OwnedBy(orders: map<Id, Order>, orderId: Id, daiictId: Id) {
    orderId in orders && orders[orderId].requestedBy == daiictId
  }

  // ---------------------------------------------------------------------
  // The store
  // ---------------------------------------------------------------------

  class OrderStore {
    var orders: map<Id, Order>
    var carts: map<Id, Cart>
    const services: map<Id, Service>
    const parameters: map<Id, Parameter>
    /** The ids that have an institute record (the mail address lookup). */
    const members: set<Id>

    /** Every stored order carries one of the known statuses. */
    ghost predicate Valid()
      reads this
    {
      forall id | id in orders :: IsOrderStatus(orders[id].status)
    }

    /** Every stored order is in exactly one phase of its life cycle: its
        owner may still edit or delete it, an administrator may still cancel
        it, or no handler moves it any more. */
    lemma StoredOrderPhase(id: Id)
      requires Valid() && id in orders
      ensures var s := orders[id].status;
        && (PrePlacement(s) || CancelAllowed(s) || s == Completed || s == Cancelled)
        && !(PrePlacement(s) && CancelAllowed(s))
        && (s == Completed || s == Cancelled ==> !PrePlacement(s) && !CancelAllowed(s))
    {
      assert IsOrderStatus(orders[id].status);
    }

    constructor (orders: map<Id, Order>, carts: map<Id, Cart>, services: map<Id, Service>,
                 parameters: map<Id, Parameter>, members: set<Id>)
      requires forall id | id in orders :: IsOrderStatus(orders[id].status)
      ensures Valid()
      ensures this.orders == orders && this.carts == carts
      ensures this.services == services && this.parameters == parameters && this.members == members
    {
      this.orders := orders;
      this.carts := carts;
      this.services := services;
      this.parameters := parameters;
      this.members := members;
    }

    /** The `allReady`/`allCancel` loop over a populated cart. */
    method AggregateFlags(ids: seq<Id>) returns (allReady: bool, allCancel: bool)
      ensures allReady == AllReady(MemberStatuses(orders, ids))
      ensures allCancel == AllCancelled(MemberStatuses(orders, ids))
    {
      allReady, allCancel := true, true;
      var i := 0;
      while i < |ids|
        invariant 0 <= i <= |ids|
        invariant allReady == AllReady(MemberStatuses(orders, ids[..i]))
        invariant allCancel == AllCancelled(MemberStatuses(orders, ids[..i]))
      {
        assert ids[..i + 1][..i] == ids[..i];
        var step := if ids[i] in orders then [orders[ids[i]].status] else [];
        assert MemberStatuses(orders, ids[..i + 1]) == MemberStatuses(orders, ids[..i]) + step;
        FlagsOfConcat(MemberStatuses(orders, ids[..i]), step);
        assert step != [] ==> step[0] == orders[ids[i]].status;
        if ids[i] in orders {
          var status := orders[ids[i]].status;
          if status != Ready && status != Cancelled {
            allReady := false;
          }
          if status != Cancelled {
            allCancel := false;
          }
        }
        i := i + 1;
      }
      assert ids[..i] == ids;
    }

    /** `addOrder`. */
    method AddOrder(caller: Requester, createOwnGranted: bool, orderId: Id, request: NewOrderRequest, now: int)
      returns (code: Code)
      requires Valid()
      requires orderId !in orders
      modifies this
      ensures Valid()
      ensures !createOwnGranted ==> code == Forbidden
      ensures createOwnGranted && request.service !in services ==> code == NotFound
      ensures createOwnGranted && request.service in services ==>
        var service := services[request.service];
        var serviceCost := CalculateServiceCost(service, request.unitsRequested, caller);
        var parameterCost := ParameterCost(request.parameters, request.unitsRequested, parameters, service.availableParameters);
        && (serviceCost == -1 || parameterCost == -1 ==> code == PreconditionFailed)
        && (serviceCost != -1 && parameterCost != -1 && caller.cartId !in old(carts) ==> code == ServerError)
        && (serviceCost != -1 && parameterCost != -1 && caller.cartId in old(carts) ==>
              var cart := old(carts)[caller.cartId];
              if !MemberServicesKnown(old(orders), cart.orders, services) then
                code == ServerError
              else if CapAllows(old(orders), cart, request.service, service.maxUnits, request.unitsRequested) then
                && code == Created
                && orders == old(orders)[orderId := NewOrder(caller, request, serviceCost, parameterCost, now)]
                && carts == old(carts)[caller.cartId := cart.(orders := cart.orders + [orderId])]
              else
                code == PreconditionFailed)
      ensures code != Created ==> orders == old(orders) && carts == old(carts)
    {
      if !createOwnGranted {
        return Forbidden;
      }
      if request.service !in services {
        return NotFound;
      }
      var service := services[request.service];
      var serviceCost := CalculateServiceCost(service, request.unitsRequested, caller);
      if serviceCost == -1 {
        return PreconditionFailed;
      }
      var parameterCost := CalculateParameterCost(request.parameters, request.unitsRequested, parameters, service.availableParameters);
      if parameterCost == -1 {
        return PreconditionFailed;
      }
      if caller.cartId !in carts {
        return ServerError;
      }
      var cart := carts[caller.cartId];
      if !MemberServicesKnown(orders, cart.orders, services) {
        return ServerError;
      }
      var withinCap := ValidateAddedOrder(MemberServices(orders, cart.orders), request.service, service.maxUnits, request.unitsRequested);
      if !withinCap {
        return PreconditionFailed;
      }
      orders := orders[orderId := NewOrder(caller, request, serviceCost, parameterCost, now)];
      carts := carts[caller.cartId := cart.(orders := cart.orders + [orderId])];
      code := Created;
    }

    /** `deleteOrder`: only the owner, only before placement. */
    method DeleteOrder(caller: Requester, deleteOwnGranted: bool, orderId: Id) returns (code: Code)
      requires Valid()
      modifies this
      ensures Valid()
      ensures code == Ok || code == Forbidden
      ensures code == Ok <==>
        deleteOwnGranted && OwnedBy(old(orders), orderId, caller.daiictId) && PrePlacement(old(orders)[orderId].status)
      ensures code == Ok ==>
        && orders == old(orders) - {orderId}
        && carts == if caller.cartId in old(carts)
                    then old(carts)[caller.cartId := Pull(old(carts)[caller.cartId], orderId)]
                    else old(carts)
      ensures code == Forbidden ==> orders == old(orders) && carts == old(carts)
    {
      if !deleteOwnGranted {
        return Forbidden;
      }
      if orderId in orders && orders[orderId].requestedBy == caller.daiictId
        && (orders[orderId].status == Unplaced || orders[orderId].status == InvalidOrder)
      {
        orders := orders - {orderId};
        if caller.cartId in carts {
          carts := carts[caller.cartId := Pull(carts[caller.cartId], orderId)];
        }
        code := Ok;
      } else {
        code := Forbidden;
      }
    }

    /** `updateOrder` by the owner. */
    method UpdateOrder(caller: Requester, updateOwnGranted: bool, orderId: Id, patch: OrderPatch, now: int)
      returns (code: Code)
      requires Valid()
      modifies this
      ensures Valid()
      ensures !updateOwnGranted ==> code == Forbidden && orders == old(orders) && carts == old(carts)
      ensures updateOwnGranted && !OwnedBy(old(orders), orderId, caller.daiictId) ==>
        code == NotFound && orders == old(orders) && carts == old(carts)
      ensures updateOwnGranted && OwnedBy(old(orders), orderId, caller.daiictId) ==>
        var order := old(orders)[orderId];
        && (order.status == OnHold ==>
              && code == Ok
              && orders == old(orders)[orderId := Resumed(order, patch, caller.daiictId, now)]
              && carts == if order.cartId in old(carts)
                          then old(carts)[order.cartId := old(carts)[order.cartId].(status := CartProcessing)]
                          else old(carts))
        && (PrePlacement(order.status) && EditNeedsService(patch) && order.service !in services ==>
              code == ServerError && orders == old(orders) && carts == old(carts))
        && (PrePlacement(order.status) && (EditNeedsService(patch) ==> order.service in services) ==>
              && carts == old(carts)
              && (EditRejected(order, patch, caller, services, parameters) ==>
                    code == PreconditionFailed && orders == old(orders))
              && (!EditRejected(order, patch, caller, services, parameters) ==>
                    code == Ok && orders == old(orders)[orderId := Edited(order, patch, caller, services, parameters)]))
        && (order.status != OnHold && !PrePlacement(order.status) ==>
              code == Forbidden && orders == old(orders) && carts == old(carts))
    {
      if !updateOwnGranted {
        return Forbidden;
      }
      if orderId !in orders || orders[orderId].requestedBy != caller.daiictId {
        return NotFound;
      }
      var order := orders[orderId];
      if order.status == OnHold {
        orders := orders[orderId := Resumed(order, patch, caller.daiictId, now)];
        if order.cartId in carts {
          carts := carts[order.cartId := carts[order.cartId].(status := CartProcessing)];
        }
        code := Ok;
      } else if order.status == Unplaced || order.status == InvalidOrder {
        var edited := order;
        if patch.unitsRequested.Some? {
          if order.service !in services {
            return ServerError;
          }
          var serviceCost := CalculateServiceCost(services[order.service], patch.unitsRequested.value, caller);
          if serviceCost == -1 {
            return PreconditionFailed;
          }
          edited := edited.(unitsRequested := patch.unitsRequested.value, serviceCost := serviceCost);
        }
        if patch.parameters.Some? {
          if order.service !in services {
            return ServerError;
          }
          var service := services[order.service];
          var parameterCost := CalculateParameterCost(patch.parameters.value, order.unitsRequested, parameters, service.availableParameters);
          if parameterCost == -1 {
            return PreconditionFailed;
          }
          edited := edited.(parameters := patch.parameters.value, parameterCost := parameterCost);
        }
        if patch.comment.Some? {
          edited := edited.(comment := patch.comment);
        }
        orders := orders[orderId := edited];
        code := Ok;
      } else {
        code := Forbidden;
      }
    }

    /** `changeStatus` by an administrator: the order moves to `ready` or
      `onHold`, then the cart is recomputed from its members.  The
      requester's mail address is looked up between the guard and the
      target check, and the service's name is read before the write. */
    method ChangeStatus(actor: Id, changeStatusGranted: bool, orderId: Id, target: int, reason: Option<string>, now: int)
      returns (code: Code)
      requires Valid()
      modifies this
      ensures Valid()
      ensures !changeStatusGranted ==> code == Forbidden && orders == old(orders) && carts == old(carts)
      ensures changeStatusGranted && orderId !in old(orders) ==>
        code == NotFound && orders == old(orders) && carts == old(carts)
      ensures changeStatusGranted && orderId in old(orders) && !StatusChangeGuard(old(orders)[orderId].status, target) ==>
        code == BadRequest && orders == old(orders) && carts == old(carts)
      ensures changeStatusGranted && orderId in old(orders) && StatusChangeGuard(old(orders)[orderId].status, target) ==>
        && (old(orders)[orderId].requestedBy !in members ==>
              code == ServerError && orders == old(orders) && carts == old(carts))
        && (old(orders)[orderId].requestedBy in members && target != Ready && target != OnHold ==>
              code == BadRequest && orders == old(orders) && carts == old(carts))
        && (old(orders)[orderId].requestedBy in members && (target == Ready || target == OnHold) &&
            old(orders)[orderId].service !in services ==>
              code == ServerError && orders == old(orders) && carts == old(carts))
      ensures (changeStatusGranted && orderId in old(orders) && old(orders)[orderId].requestedBy in members &&
               old(orders)[orderId].service in services &&
               StatusChangeAllowed(old(orders)[orderId].status, target)) ==>
        var order := old(orders)[orderId];
        && orders == old(orders)[orderId := StatusChanged(order, target, reason, actor, now)]
        && (order.cartId in old(carts) ==>
              code == Ok && carts == old(carts)[order.cartId := CartAfterStatusChange(old(carts)[order.cartId], orders, now)])
        && (order.cartId !in old(carts) ==> code == ServerError && carts == old(carts))
    {
      if !changeStatusGranted {
        return Forbidden;
      }
      if orderId !in orders {
        return NotFound;
      }
      var order := orders[orderId];
      var holdOrder := target == OnHold && order.status > Placed && order.status < Ready;
      if !holdOrder && order.status != Processing {
        return BadRequest;
      }
      if order.requestedBy !in members {
        return ServerError;
      }
      if target != Ready && target != OnHold {
        return BadRequest;
      }
      // Both accepted targets read the service's name for the mail.
      if order.service !in services {
        return ServerError;
      }
      orders := orders[orderId := StatusChanged(order, target, reason, actor, now)];
      if order.cartId !in carts {
        return ServerError;
      }
      var cart := carts[order.cartId];
      var allReady, _ := AggregateFlags(cart.orders);
      carts := carts[order.cartId := AfterReadyCheck(cart, allReady, now)];
      code := Ok;
    }

    /** `cancelOrder` by an administrator: the order is cancelled, then the
      cart is recomputed from its members (ready check, then cancel check).
      The requester's mail address, and for a cart that ends cancelled the
      service's name, are read only after both writes. */
    method CancelOrder(actor: Id, changeStatusGranted: bool, orderId: Id, reason: Option<string>, now: int)
      returns (code: Code)
      requires Valid()
      modifies this
      ensures Valid()
      ensures !changeStatusGranted ==> code == Forbidden && orders == old(orders) && carts == old(carts)
      ensures changeStatusGranted && orderId !in old(orders) ==>
        code == NotFound && orders == old(orders) && carts == old(carts)
      ensures changeStatusGranted && orderId in old(orders) && !CancelAllowed(old(orders)[orderId].status) ==>
        code == BadRequest && orders == old(orders) && carts == old(carts)
      ensures changeStatusGranted && orderId in old(orders) && CancelAllowed(old(orders)[orderId].status) ==>
        var order := old(orders)[orderId];
        && orders == old(orders)[orderId := CancelledOrder(order, reason, actor, now)]
        && (order.cartId in old(carts) ==>
              && code == (if order.requestedBy in members &&
                             (order.service in services ||
                              !AllCancelled(MemberStatuses(orders, old(carts)[order.cartId].orders)))
                          then Ok else ServerError)
              && carts == old(carts)[order.cartId := CartAfterCancel(old(carts)[order.cartId], orders, now)])
        && (order.cartId !in old(carts) ==> code == ServerError && carts == old(carts))
    {
      if !changeStatusGranted {
        return Forbidden;
      }
      if orderId !in orders {
        return NotFound;
      }
      var order := orders[orderId];
      if !(order.status >= Placed && order.status < Completed) {
        return BadRequest;
      }
      orders := orders[orderId := CancelledOrder(order, reason, actor, now)];
      if order.cartId !in carts {
        return ServerError;
      }
      var cart := carts[order.cartId];
      var allReady, allCancel := AggregateFlags(cart.orders);
      cart := AfterReadyCheck(cart, allReady, now);
      cart := AfterCancelCheck(cart, allCancel, now);
      carts := carts[order.cartId := cart];
      // The mails look up the requester's address; the all-cancelled mail
      // also reads the service's name.
      code := if order.requestedBy in members && (order.service in services || !allCancel) then Ok else ServerError;
    }
  }
}
