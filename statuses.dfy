/** The status codes of orders and carts, and the response codes of the
    request handlers.  The configuration module that defines the order
    statuses is not part of this model; the source compares them numerically,
    so they are kept as ordered integers here, in the order of the order
    life cycle (so `OnHold` lies between `Processing` and `Ready`), with
    `Cancelled` after `Completed`, which makes a cancelled order terminal
    for every guard. */
module Statuses {

  const Unplaced: int := 0
  const InvalidOrder: int := 1
  const Placed: int := 2
  const Processing: int := 3
  const OnHold: int := 4
  const Ready: int := 5
  const Completed: int := 6
  const Cancelled: int := 7

  /** The statuses an order document can carry. */
  predicate IsOrderStatus(s: int) {
    Unplaced <= s <= Cancelled
  }

  /** The two statuses in which the owner may still edit or delete an order,
      and in which reading it recalculates its cost. */
  predicate PrePlacement(s: int) {
    s == Unplaced || s == InvalidOrder
  }

  /** A cart has its own status enumeration; this core only ever writes the
      four named ones and leaves any other status untouched. */
  datatype CartStatus =
    | CartProcessing
    | ReadyToDeliver
    | ReadyToPickup
    | CartCancelled
    | CartOther(code: int)

  /** The HTTP status a handler answers with. */
  datatype Code =
    | Ok                  // 200
    | Created             // 201
    | BadRequest          // 400
    | Forbidden           // 403
    | NotFound            // 404
    | PreconditionFailed  // 412
    | ServerError         // an exception thrown inside the handler (500)
}
