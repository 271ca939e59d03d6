/** The documents the order workflow reads and writes: catalog entries
    (services and parameters), orders and carts, and the authenticated
    requester.  Every record is a value; the store that holds them is the
    class in module OrderHandlers. */
module Records {
  import opened Optional
  import opened Statuses

  /** Document ids (database object ids and institute ids alike). */
  type Id = string

  /** The institutional attributes of a user that service eligibility reads;
      `None` is an attribute the record does not set. */
  datatype UserInfo = UserInfo(batch: Option<string>, programme: Option<string>, userStatus: Option<string>)

  /** The authenticated caller: institute id, own cart and institutional record. */
  datatype Requester = Requester(daiictId: Id, cartId: Id, info: UserInfo)

  /** A catalog service.  `availableParameters` is `None` when the service
      does not restrict its parameters (an empty list does restrict). */
  datatype Service = Service(
    isActive: bool,
    isSpecialService: bool,
    specialServiceUsers: seq<Id>,
    allowedBatches: seq<string>,
    allowedProgrammes: seq<string>,
    allowedUserStatus: seq<string>,
    maxUnits: int,
    baseCharge: int,
    availableParameters: Option<seq<Id>>)

  /** A catalog parameter (an add-on priced per unit). */
  datatype Parameter = Parameter(isActive: bool, baseCharge: int)

  /** An order names its parameters either as populated documents or as bare ids. */
  datatype ParamRef = ParamDoc(id: Id) | ParamId(id: Id)

  /** An entry of a `statusChangeTime` map: when, and by whom. */
  datatype Stamp = Stamp(time: int, actor: Id)

  /** The reasons recalculation appends to `validityErrors`. */
  datatype ValidityError = InvalidParameter | InvalidService

  datatype Order = Order(
    requestedBy: Id,
    cartId: Id,
    service: Id,
    parameters: seq<ParamRef>,
    unitsRequested: int,
    serviceCost: int,
    parameterCost: int,
    totalCost: int,
    status: int,
    validityErrors: seq<ValidityError>,
    statusChangeTime: map<int, Stamp>,
    comment: Option<string>,
    holdReason: Option<string>,
    cancelReason: Option<string>,
    createdOn: int,
    lastModified: Option<int>,
    lastModifiedBy: Option<Id>)

  /** How the orders of a cart reach the student (unset until chosen). */
  datatype Category = Delivery | Pickup | NoCategory

  datatype Cart = Cart(
    requestedBy: Id,
    orders: seq<Id>,
    status: CartStatus,
    statusChangeTime: map<CartStatus, Stamp>,
    cancelReason: Option<string>,
    category: Category)

  /** The synthetic actor that stamps automatic cart transitions. */
  const SystemAdmin: Id := "systemAdmin"

  /** The fixed reason recorded when a cart is cancelled because all its orders are. */
  const AllOrdersCancelled: string := "All orders cancelled"
}
