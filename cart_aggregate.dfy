/** The cart-level recomputation that `changeStatus` and `cancelOrder` run
    after writing an order's new status: the `allReady` and `allCancel`
    flags over the cart's member orders and the cart status they lead to. */
module CartAggregate {
  import opened Optional
  import opened Statuses
  import opened Records

  /** The statuses of the cart's orders as the populated cart shows them:
      ids whose order document no longer exists are dropped, the others keep
      their place in the list. */
  function MemberStatuses(orders: map<Id, Order>, ids: seq<Id>): (ss: seq<int>)
    ensures |ss| <= |ids|
  {
    if ids == [] then []
    else
      var last := ids[|ids| - 1];
      MemberStatuses(orders, ids[..|ids| - 1]) + (if last in orders then [orders[last].status] else [])
  }

  /** A member status counts towards `allReady` when it is ready or cancelled. */
  predicate ReadyOrCancelled(s: int) {
    s == Ready || s == Cancelled
  }

  predicate AllReady(ss: seq<int>) {
    forall i | 0 <= i < |ss| :: ReadyOrCancelled(ss[i])
  }

  predicate AllCancelled(ss: seq<int>) {
    forall i | 0 <= i < |ss| :: ss[i] == Cancelled
  }

  /** Both flags split over a concatenation, which lets a loop build them
      one member at a time. */
  lemma FlagsOfConcat(ss: seq<int>, tail: seq<int>)
    ensures AllReady(ss + tail) <==> AllReady(ss) && AllReady(tail)
    ensures AllCancelled(ss + tail) <==> AllCancelled(ss) && AllCancelled(tail)
  {
    if AllReady(ss) && AllReady(tail) {
      forall i | 0 <= i < |ss + tail| ensures ReadyOrCancelled((ss + tail)[i]) {
        if i >= |ss| {
          assert (ss + tail)[i] == tail[i - |ss|];
        }
      }
    }
    if AllReady(ss + tail) {
      forall i | 0 <= i < |ss| ensures ReadyOrCancelled(ss[i]) {
        assert (ss + tail)[i] == ss[i];
      }
      forall i | 0 <= i < |tail| ensures ReadyOrCancelled(tail[i]) {
        assert (ss + tail)[|ss| + i] == tail[i];
      }
    }
    if AllCancelled(ss) && AllCancelled(tail) {
      forall i | 0 <= i < |ss + tail| ensures (ss + tail)[i] == Cancelled {
        if i >= |ss| {
          assert (ss + tail)[i] == tail[i - |ss|];
        }
      }
    }
    if AllCancelled(ss + tail) {
      forall i | 0 <= i < |ss| ensures ss[i] == Cancelled {
        assert (ss + tail)[i] == ss[i];
      }
      forall i | 0 <= i < |tail| ensures tail[i] == Cancelled {
        assert (ss + tail)[|ss| + i] == tail[i];
      }
    }
  }

  /** The member statuses are exactly the statuses of the listed orders that exist. */
  lemma {:induction false} MemberStatusesAreMembers(orders: map<Id, Order>, ids: seq<Id>)
    ensures forall s :: s in MemberStatuses(orders, ids) <==>
      exists k | 0 <= k < |ids| :: ids[k] in orders && orders[ids[k]].status == s
  {
    if ids != [] {
      var n := |ids| - 1;
      MemberStatusesAreMembers(orders, ids[..n]);
      forall s
        ensures s in MemberStatuses(orders, ids) <==>
          exists k | 0 <= k < |ids| :: ids[k] in orders && orders[ids[k]].status == s
      {
        if s in MemberStatuses(orders, ids) && s !in MemberStatuses(orders, ids[..n]) {
          assert ids[n] in orders && orders[ids[n]].status == s;
        }
        if exists k | 0 <= k < |ids| :: ids[k] in orders && orders[ids[k]].status == s {
          var k :| 0 <= k < |ids| && ids[k] in orders && orders[ids[k]].status == s;
          if k < n {
            assert ids[..n][k] == ids[k];
          }
        }
      }
    }
  }

  /** `allReady` over the cart holds exactly when every listed order that
      exists is ready or cancelled (vacuously for a cart with none). */
  lemma AllReadyMeansEveryMember(orders: map<Id, Order>, ids: seq<Id>)
    ensures AllReady(MemberStatuses(orders, ids)) <==>
      forall k | 0 <= k < |ids| && ids[k] in orders :: ReadyOrCancelled(orders[ids[k]].status)
  {
    var ss := MemberStatuses(orders, ids);
    MemberStatusesAreMembers(orders, ids);
    if AllReady(ss) {
      forall k | 0 <= k < |ids| && ids[k] in orders
        ensures ReadyOrCancelled(orders[ids[k]].status)
      {
        assert orders[ids[k]].status in ss;
      }
    }
  }

  /** `allCancel` over the cart holds exactly when every listed order that
      exists is cancelled. */
  lemma AllCancelledMeansEveryMember(orders: map<Id, Order>, ids: seq<Id>)
    ensures AllCancelled(MemberStatuses(orders, ids)) <==>
      forall k | 0 <= k < |ids| && ids[k] in orders :: orders[ids[k]].status == Cancelled
  {
    var ss := MemberStatuses(orders, ids);
    MemberStatusesAreMembers(orders, ids);
    if AllCancelled(ss) {
      forall k | 0 <= k < |ids| && ids[k] in orders
        ensures orders[ids[k]].status == Cancelled
      {
        assert orders[ids[k]].status in ss;
      }
    }
  }

  /** The ready status a cart takes: to be delivered or to be picked up. */
  function ReadyStatusFor(category: Category): (s: CartStatus)
    ensures s == ReadyToDeliver <==> category == Delivery
    ensures s == ReadyToDeliver || s == ReadyToPickup
  {
    if category == Delivery then ReadyToDeliver else ReadyToPickup
  }

  /** The `if (allReady)` block: the cart becomes ready, stamped by the
      system actor; otherwise it is left as it was. */
  function AfterReadyCheck(cart: Cart, allReady: bool, now: int): (c: Cart)
    ensures !allReady ==> c == cart
    ensures allReady ==> c == cart.(status := ReadyStatusFor(cart.category),
      statusChangeTime := cart.statusChangeTime[ReadyStatusFor(cart.category) := Stamp(now, SystemAdmin)])
  {
    if !allReady then cart
    else
      var s := ReadyStatusFor(cart.category);
      cart.(status := s, statusChangeTime := cart.statusChangeTime[s := Stamp(now, SystemAdmin)])
  }

  /** The `if (allCancel)` block: the cart is cancelled with the fixed
      aggregate reason, stamped by the system actor. */
  function AfterCancelCheck(cart: Cart, allCancel: bool, now: int): (c: Cart)
    ensures !allCancel ==> c == cart
    ensures allCancel ==> c == cart.(status := CartCancelled, cancelReason := Some(AllOrdersCancelled),
      statusChangeTime := cart.statusChangeTime[CartCancelled := Stamp(now, SystemAdmin)])
  {
    if !allCancel then cart
    else cart.(status := CartCancelled, cancelReason := Some(AllOrdersCancelled),
      statusChangeTime := cart.statusChangeTime[CartCancelled := Stamp(now, SystemAdmin)])
  }

  /** The cart as `changeStatus` saves it, given the orders after the write. */
  function CartAfterStatusChange(cart: Cart, orders: map<Id, Order>, now: int): Cart {
    AfterReadyCheck(cart, AllReady(MemberStatuses(orders, cart.orders)), now)
  }

  /** The cart as `cancelOrder` saves it, given the orders after the write:
      the ready check first, then the cancel check. */
  function CartAfterCancel(cart: Cart, orders: map<Id, Order>, now: int): Cart {
    var ss := MemberStatuses(orders, cart.orders);
    AfterCancelCheck(AfterReadyCheck(cart, AllReady(ss), now), AllCancelled(ss), now)
  }

  /** The outcome of the recomputation after a cancellation. */
  lemma CancelRecomputation(cart: Cart, orders: map<Id, Order>, now: int)
    ensures var ss := MemberStatuses(orders, cart.orders);
      var c := CartAfterCancel(cart, orders, now);
      && (AllCancelled(ss) ==> AllReady(ss))
      && (AllCancelled(ss) ==>
            && c.status == CartCancelled
            && c.cancelReason == Some(AllOrdersCancelled)
            && c.statusChangeTime[CartCancelled] == Stamp(now, SystemAdmin)
            && c.statusChangeTime[ReadyStatusFor(cart.category)] == Stamp(now, SystemAdmin))
      && (AllReady(ss) && !AllCancelled(ss) ==>
            c == cart.(status := ReadyStatusFor(cart.category),
              statusChangeTime := cart.statusChangeTime[ReadyStatusFor(cart.category) := Stamp(now, SystemAdmin)]))
      && (!AllReady(ss) ==> c == cart)
  {
  }

  /** After a cancellation the cart is cancelled exactly when all its orders
      are, or when it already was and the ready check did not fire. */
  lemma CancelledCartIff(cart: Cart, orders: map<Id, Order>, now: int)
    ensures var ss := MemberStatuses(orders, cart.orders);
      CartAfterCancel(cart, orders, now).status == CartCancelled <==>
        AllCancelled(ss) || (!AllReady(ss) && cart.status == CartCancelled)
  {
  }

  /** After either recomputation the cart is ready exactly when every member
      is ready or cancelled and not all are cancelled, or when it already was
      and the ready check did not fire.  No member needs to be ready: a cart
      whose members are all cancelled passes the ready check too. */
  lemma ReadyCartIff(cart: Cart, orders: map<Id, Order>, now: int)
    ensures var ss := MemberStatuses(orders, cart.orders);
      var ready := ReadyStatusFor(cart.category);
      && (CartAfterCancel(cart, orders, now).status == ready <==>
            (AllReady(ss) && !AllCancelled(ss)) || (!AllReady(ss) && cart.status == ready))
      && (CartAfterStatusChange(cart, orders, now).status == ready <==>
            AllReady(ss) || cart.status == ready)
  {
  }
}
