# Order workflow core of the student service-request portal

This project models, in Dafny, the core of a student service-request portal,
where students order administrative services (document requests, collection
or delivery of items) from their institute. It has three parts.

- The order controller (`controllers/order.js`):
  - the cost engine, which prices a service request and its parameters and
    recalculates and revalidates stored orders;
  - the per-service cap checked when an order is added to a cart;
  - the status guards of the order life cycle;
  - the recomputation of a cart's status from its member orders;
  - the handlers `getAllOrders` (its query rewrite), `addOrder`,
    `deleteOrder`, `updateOrder`, `changeStatus` and `cancelOrder`.
- The permission table (`configuration/fieldAccess.js`): a constant table
  from resource and role to the fields each action may read, create or
  update, with a lookup.
- The account controller (`controllers/account.js`):
  - sign-up throttling with verification links;
  - the password-reset token check;
  - the role derivation at sign-in.

The modules follow the source:

- `Statuses`: order statuses, cart statuses and response codes.
- `Records`: the documents.
- `OrderCost`: the cost engine.
- `CartAggregate`: the cart recomputation.
- `OrderHandlers`: the read query, the guards and the records the handlers
  write. Its class `OrderStore` holds the orders and carts in maps that its
  handler methods update.
- `FieldAccess`: the table and its lookup.
- `Account`: throttling, reset links and roles. Its class `AccountStore`
  holds users, pending sign-ups and carts.

The model makes these choices:

- Order statuses are ordered integers, because the source compares them
  with `<` and `>=`. The order is the documented life cycle: unplaced,
  invalidOrder, placed, processing, onHold, ready, completed. The
  configuration module that fixes the numbers is not part of this model.
  Two positions matter to the guards, and the lemmas about the guards rest
  on them:
  - onHold lies between processing and ready, as the documented life
    cycle has it. `OrderHandlers.StatusChangeCases` uses this for its
    onHold cases: an order on hold passes the hold guard.
  - Cancelled comes after completed. Its number is not documented; this
    position is chosen so that a cancelled order is terminal. The
    cancelled halves of `OrderHandlers.CancelCases` and
    `OrderHandlers.TerminalStatuses` rest on this choice. With cancelled
    numbered between placed and completed, the `cancelOrder` guard
    (order.js:613) would admit a cancelled order again.
- Cart statuses are only ever compared for equality, so they are a
  datatype.
- Collections of ids are sequences where order or repetition matters, such
  as a cart's order list or an order's parameters. The permission lists
  are sets, because only membership is ever asked of them.
- Where the source would throw (a missing service, cart or institute
  record), the handler answers `ServerError` and its contract says what
  was already written by then. A method that only computes a value
  (`OrderCost.RecalculateOrderCost`, `ValidateOrders`, `ValidateOrder`)
  returns `None` instead.
- Access-control decisions (`granted`) arrive as booleans. Clocks, fresh
  ids, random tokens and password hashes arrive as parameters.
- The institute records are keyed by institute id.

The model follows the code where it differs from the documented intended behaviour:

- The `addOrder` cap adds the requested units to the NUMBER of orders of
  the same service already in the cart, not their units
  (`OrderCost.ValidateAddedOrder`, `OrderHandlers.CapCountsOrders`).
- An order whose service cost is invalid keeps its valid parameter cost in
  `totalCost`, and the reverse is also true (`OrderCost.WithCosts`).
- The all-ready check needs no order to be ready. It also passes for a
  cart whose orders are all cancelled, and for a cart whose listed orders
  no longer exist (`CartAggregate.ReadyCartIff`).

## Model

| member | source | states |
|---|---|---|
| OrderCost.CalculateServiceCost | controllers/order.js:24-36 | -1 whenever the user is not admitted (special-service list, batch, programme or user-status lists, active flag, 0 < units <= maxUnits); any other result is units × baseCharge; with a non-negative base charge, -1 means exactly "not eligible" |
| OrderCost.UnsetAttributesNeverExclude | controllers/order.js:27-29 | an absent or empty user attribute never excludes: a user with all three attributes unset (absent or "") is priced by the special-service list, the active flag and the unit bounds alone |
| OrderCost.WildcardAdmitsEveryone | controllers/order.js:26-29 | when all three lists hold `*` and the service is not special, every user gets the same price |
| OrderCost.CalculateParameterCost | controllers/order.js:39-78 | the fail-fast loop returns ParameterCost: -1 if some parameter is missing, inactive or outside the service's list, otherwise units × the summed base charges |
| OrderCost.DocumentsAndIdsCostTheSame | controllers/order.js:46-51 | a parameter given as a populated document or as a bare id is priced the same |
| OrderCost.ParameterCostSentinel | controllers/order.js:53-56 | with non-negative charges and positive units, -1 is returned if and only if some parameter is not admissible |
| OrderCost.RestrictionOnlyRejects | controllers/order.js:43-72 | the service's parameter restriction only adds rejections; an accepted price equals the unrestricted price |
| OrderCost.WithCosts | controllers/order.js:85-99 | both costs stored; the status becomes invalidOrder if and only if a cost is -1 (or it already was); totalCost sums the valid costs; one error reason per invalid cost is appended; no other field changes |
| OrderCost.RecalculateOrderCost | controllers/order.js:80-101 | None if and only if the order's service no longer exists (the source throws); otherwise the step-by-step recalculation equals WithCosts of the parameter cost (with no restriction list) and the service cost |
| OrderCost.RecalculationIsStable | controllers/order.js:80-101 | recalculating the result again gives the same status and costs; only the error list grows, by the same reasons once more |
| OrderCost.ValidateOrders | controllers/order.js:105-117 | None if and only if an unplaced or invalid order's service no longer exists; otherwise same length, unplaced and invalid orders are recalculated, every other order is returned untouched, and a status changes only to invalidOrder |
| OrderCost.ValidateOrder | controllers/order.js:103-131 | None exactly when a recalculated order's service no longer exists; otherwise keeps the shape of its argument: a list maps element-wise, one order is revalidated, undefined stays undefined |
| OrderCost.ValidateAddedOrder | controllers/order.js:133-144 | accepts if and only if requested units + the number of cart orders of the same service <= maxUnits |
| OrderHandlers.CapCountsOrders | controllers/order.js:137-143 | the cap counts orders, not units: a cart holding one 3-unit order still accepts 3 more units when maxUnits is 5 |
| OrderHandlers.ReadAllQuery | controllers/order.js:177-194 | FORBIDDEN if and only if neither grant; a reader of any order matches only statuses >= placed, all of them without a filter, exactly the requested status when it is >= placed; a reader of own orders is pinned to their own id |
| OrderHandlers.StatusChangeCases | controllers/order.js:457-506 | changeStatus admits exactly processing → ready, processing → onHold and onHold → onHold, and never moves an order back |
| OrderHandlers.CancelCases | controllers/order.js:613 | cancelOrder admits exactly placed, processing, onHold and ready orders |
| OrderHandlers.TerminalStatuses | controllers/order.js:457-459 | neither admin guard, nor the owner's edit and delete guards, admit a cancelled or completed order |
| OrderHandlers.OrderStore.StoredOrderPhase | controllers/order.js:613 | every order in a store whose statuses are all known is in exactly one phase: editable and deletable by its owner (unplaced or invalid, the guards at order.js:313 and :377), cancellable by an administrator (placed through ready), or completed or cancelled, where neither guard admits it |
| OrderHandlers.NewOrder | controllers/order.js:243-275 | a new order is unplaced and belongs to the caller and the caller's cart; its total cost 0, empty error list and empty stamp map are assumed schema defaults (the schema is not part of this model) |
| OrderHandlers.Edited | controllers/order.js:377-418 | supplied comment, units and parameters replace the stored ones; new units are re-priced as a service cost; new parameters are priced with the units stored BEFORE the edit and the service's parameter list; an accepted edit stores no -1; no other field changes |
| OrderHandlers.Resumed | controllers/order.js:352-362 | a held order resumed by its owner is processing, takes the body's comment (none if absent) and the modification stamp; nothing else changes |
| OrderHandlers.StatusChanged | controllers/order.js:452-508 | the order takes the target status and its stamp, other stamps kept; the hold reason is replaced only for onHold; the modification stamp is set; nothing else changes |
| OrderHandlers.CancelledOrder | controllers/order.js:597-617 | the order is cancelled with its stamp, other stamps kept; a body without a reason keeps the stored one; the modification stamp is set; nothing else changes |
| OrderHandlers.Without | controllers/order.js:316-320 | the intended `$pull`: every occurrence of the id is removed and nothing else (multiset), and the remaining ids keep their order (a subsequence) |
| OrderHandlers.Pull | controllers/order.js:316-320 | after the pull every occurrence of the deleted id is gone from the cart, every other id stays as often as before and in its order, and every other cart field (owner, status, stamps, cancel reason, category) is unchanged |
| OrderHandlers.PullAsWrittenKeepsDeletedId | controllers/order.js:316-320 | the update as written leaves a deleted order's id in the cart |
| OrderHandlers.OrderStore.AggregateFlags | controllers/order.js:627-636 | the loop's allReady and allCancel equal AllReady and AllCancelled of the statuses of the cart's existing orders |
| OrderHandlers.OrderStore.AddOrder | controllers/order.js:233-297 | the checks in source order: Forbidden, NotFound, PreconditionFailed on either cost -1, ServerError without a cart or when an order already in the cart has lost its service (the cap loop reads it), PreconditionFailed on the cap, else Created; on Created the new order is stored and appended to the caller's cart; nothing is written otherwise |
| OrderHandlers.OrderStore.DeleteOrder | controllers/order.js:299-329 | Ok if and only if granted, owned and unplaced or invalid; then the order is removed and, by the corrected `$pull` (see Findings), taken out of the caller's cart; otherwise nothing changes |
| OrderHandlers.OrderStore.UpdateOrder | controllers/order.js:331-430 | Forbidden or NotFound without grant or ownership; a held order resumes to processing and its cart to processing; an unplaced or invalid order takes the edit unless a supplied change prices to -1 (PreconditionFailed); any other status is Forbidden |
| OrderHandlers.OrderStore.ChangeStatus | controllers/order.js:432-586 | Forbidden, NotFound and BadRequest leave the store as it was; a missing requester record (before the target check) or a missing service (after it, before the write) is a ServerError with nothing written; an allowed change is written with its stamp, then the order's cart is recomputed by the ready check |
| OrderHandlers.OrderStore.CancelOrder | controllers/order.js:588-743 | Forbidden, NotFound and BadRequest leave the store as it was; an allowed cancel is written with its stamp; the cart gets the ready check, then the cancel check; only afterwards a missing requester record, or a missing service when the cart ended all-cancelled, makes the answer ServerError with the writes kept |
| CartAggregate.AllReadyMeansEveryMember | controllers/order.js:518-523 | allReady holds if and only if every listed order that exists is ready or cancelled |
| CartAggregate.AllCancelledMeansEveryMember | controllers/order.js:627-636 | allCancel holds if and only if every listed order that exists is cancelled |
| CartAggregate.ReadyStatusFor | controllers/order.js:526-540 | a delivery cart becomes ready to deliver, any other cart ready to pick up |
| CartAggregate.AfterReadyCheck | controllers/order.js:525-541 | when allReady holds the cart takes its ready status with a stamp by the system actor; otherwise it is unchanged |
| CartAggregate.AfterCancelCheck | controllers/order.js:654-660 | when allCancel holds the cart is cancelled with the fixed reason and a system stamp; otherwise it is unchanged |
| CartAggregate.CancelRecomputation | controllers/order.js:638-660 | after a cancel: all cancelled implies all ready and ends cancelled with both stamps; all ready but not all cancelled ends ready; otherwise the cart is unchanged |
| CartAggregate.CancelledCartIff | controllers/order.js:638-660 | after a cancel the cart is cancelled if and only if all members are, or it already was and the ready check did not fire |
| CartAggregate.ReadyCartIff | controllers/order.js:518-541 | after either recomputation, when the cart is ready, in terms of the member statuses and the previous status |
| FieldAccess.TableIsTotal | configuration/fieldAccess.js:1-746 | every resource has an entry |
| FieldAccess.Lookup | configuration/fieldAccess.js:1-746 | a lookup answers if and only if the role is superAdmin or student |
| FieldAccess.NoAdminEntry | configuration/fieldAccess.js:1-746 | the `admin` role has no entry for any resource |
| FieldAccess.StudentNeverGetsWildcard | configuration/fieldAccess.js:1-746 | no student list holds `*` |
| FieldAccess.WildcardPlacement | configuration/fieldAccess.js:362-403 | `*` is granted exactly for superAdmin reading special services and inactive resources, and updating a resource's status |
| FieldAccess.StudentLockedOut | configuration/fieldAccess.js:362-644 | a student gets no field of special services, inactive resources, status changes, access levels or roles |
| FieldAccess.AdminWorkflowFields | configuration/fieldAccess.js:128-288 | an administrator creates no order or cart and updates only status, cancelReason and statusChangeTime |
| FieldAccess.StudentCannotPriceOrders | configuration/fieldAccess.js:203-211 | a student cannot update an order's status or any of its costs |
| FieldAccess.StudentUpdatesWhatTheyRead | configuration/fieldAccess.js:164-211 | every order field a student may update is one they may read |
| FieldAccess.PasswordNeverRead | configuration/fieldAccess.js:2-80 | an administrator may create and update a password, and no role may read one |
| FieldAccess.StudentReadsOnly | configuration/fieldAccess.js:81-745 | news, notifications, services, parameters, collection types and institute records are read-only for a student |
| Account.ThrottleOf | controllers/account.js:115-126 | the window has expired if and only if it opened at least blockageHours ago; a blocked request has reached the maximum; an accepted one has not |
| Account.AcceptedCountBounded | controllers/account.js:118-126 | an accepted request never takes the counter past the maximum |
| Account.BlockedUntilWindowPasses | controllers/account.js:118-123 | a blocked requester stays blocked until the window has passed |
| Account.AsWrittenAcceptsLinkWithoutToken | controllers/account.js:287 | as written, a user with no reset token accepts a link without an id; the corrected check refuses it |
| Account.ResetChecksAgreeOnIssuedTokens | controllers/account.js:301 | once a token and expiry are issued, the corrected check and the check as written agree |
| Account.ResetCleared | controllers/account.js:311-315 | the four reset fields are cleared and every other field kept |
| Account.ClearedResetRejectsEveryLink | controllers/account.js:311-317 | after a reset, or a sign-in that clears the fields, no link is accepted under the corrected check (`ResetLinkAccepted`); the check as written still accepts a link without an id (see Findings) |
| Account.SignInRole | controllers/account.js:357-364 | superAdmin is kept; a non-student with user status U becomes admin; everyone else becomes student |
| Account.SignInRoleGrants | controllers/account.js:357-364 | the permission lookup fails for the derived role if and only if that role is admin |
| Account.AccountStore.SignUp | controllers/account.js:55-135 | Forbidden for an existing user or an unknown id; a first request creates a pending record; otherwise the throttle reopens the window (count 1), blocks (Forbidden, nothing written), or counts up; users and carts never change |
| Account.AccountStore.ResendVerificationLink | controllers/account.js:137-175 | within the window and under the limit the counter goes up by one (Created); otherwise Forbidden and nothing changes |
| Account.AccountStore.VerifyAccount | controllers/account.js:177-215 | Verified if and only if the pending record exists, the hash matches and the institute record exists; then a cart and a user with default type and no reset state are created and the pending record is removed |
| Account.AccountStore.ForgetPassword | controllers/account.js:217-280 | no earlier request, or an expired window, issues a fresh token with count 1; a blocked request is Forbidden and writes nothing; otherwise the count goes up and the token is kept; the expiry is always renewed |
| Account.AccountStore.VerifyResetPasswordLink | controllers/account.js:282-295 | the form is shown if and only if the user exists and the corrected check accepts the link |
| Account.AccountStore.ResetPassword | controllers/account.js:297-334 | the password is reset if and only if the corrected check accepts; then the new hash is stored and the reset fields cleared, otherwise nothing changes |
| Account.AccountStore.SignIn | controllers/account.js:348-388 | a missing institute record for a non-superAdmin is a ServerError; the role is SignInRole; a pending reset is cleared and saved with the role; Ok if and only if the user is active |

The class stores keep these invariants (`Valid`), which each method
preserves:

- `OrderStore`: every order status is known.
- `AccountStore`:
  - the initial sign-up count is within the maximum, and every pending
    counter stays within it;
  - each user's four reset fields are set and cleared together, and the
    reset counter stays within the maximum.

## Left out

- The placed-order and placed-cart ledgers, and the delivery or collector
  record cancelled with a cart (order.js:616-619, 662-671): these are
  collections outside the order and cart documents of this model.
- Mail, notifications, cookies and JWT signing: I/O with no effect on the
  stored state modelled here.
- The access-control engine: its grants arrive as booleans. What it does
  with the `admin` role, which the table does not list, is not modelled.
- `filterResourceData`, `parseFilterQuery` and `parseSortQuery` (helpers
  outside the core). For the same reason only the query rewrite of
  `getAllOrders` is modelled, not the search, the population or the sort.
- `getOrder`, `changePassword` and `signOut`, and the news controller and
  the routes: these are outside the core.
- OrderHandlers.OrderStore.UpdateOrder: `comment`, `unitsRequested` and
  `parameters` are the only patch fields modelled. The source writes any
  other body field unchecked.
- OrderHandlers.OrderStore.CancelOrder: only `cancelReason` of the body is
  modelled.
- OrderHandlers.OrderStore.AddOrder: a request without `unitsRequested`
  is not modelled, because units are an integer here. In the source both
  costs become NaN, which is not the -1 sentinel. The cap comparison with
  NaN is false, so such a request is refused with PreconditionFailed at
  the cap (order.js:276-279).
- OrderHandlers.Edited: a unit change does not recompute the stored
  parameter cost, as in the source. A read recalculates unplaced and
  invalid orders only in its answer and saves nothing. Placement is
  outside this model; what it does to the stored cost is not modelled.
- OrderCost.ValidateAddedOrder: a cart order whose service document was
  deleted makes the source throw. This method takes the list of service
  ids as given; `OrderHandlers.OrderStore.AddOrder` answers ServerError
  for that case before calling it.
- The second check for a missing user in `resetPassword`
  (account.js:306-309) can never fire after the first, so it is not
  modelled.
- `resendVerificationLink`, when the sign-up window has expired
  (account.js:144), sends 403; the chained send then fails with headers
  already sent. The model answers Forbidden, with nothing written, and
  does not model the failed second send.
- Account.AccountStore.SignIn: the user's link to the institute record is
  taken as the record with the same institute id.
- The service name copied into a new order is not modelled.
- OrderHandlers.OrderStore.DeleteOrder: applies the corrected `$pull`
  (`OrderHandlers.Pull`). The source as written leaves the cart unchanged,
  which `OrderHandlers.PullAsWrittenKeepsDeletedId` states; see Findings.
- Account.AccountStore.VerifyResetPasswordLink: applies the corrected
  link check (`Account.ResetLinkAccepted`). The check as written
  (account.js:287) also accepts a link without an id for a user without a
  token, which `Account.AsWrittenAcceptsLinkWithoutToken` states; see
  Findings.
- Account.AccountStore.ResetPassword: applies the same corrected link
  check. The check as written (account.js:301) accepts the same links as
  the one at line 287; see Findings.

## Findings

| source | as written | input that shows it | evidently intended | confidence | as-written member | corrected member |
|---|---|---|---|---|---|---|
| controllers/order.js:316-320 | the cart update's only key is `'pull'` without `$`. That names no field of the cart, so the schema drops it and the update changes nothing | an owner deletes an unplaced order that is listed in their cart; its id stays in the cart's `orders` | `$pull` removes the id from the cart | medium, not executed | OrderHandlers.PullAsWrittenKeepsDeletedId | OrderHandlers.Pull |
| controllers/account.js:287 | the link is refused only if the stored token differs from `id` or the expiry is before now; a missing token equals a missing `id`, and a missing expiry is never before now | a user with no reset request opens the reset link without `?id=`; the reset form is shown, and `resetPassword` (line 301) sets the new password | only a link carrying an issued, unexpired token is accepted (`Account.ResetLinkAccepted`, used by both handlers), so a user without a token accepts no link | high, not executed | Account.AsWrittenAcceptsLinkWithoutToken | Account.ClearedResetRejectsEveryLink |
