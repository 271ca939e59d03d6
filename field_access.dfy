/** The field-permission table: for each resource and each role, the
    fields that role may read, create and update.  Each list is kept as the
    set of names it holds; a list holding "*" grants every field.  The engine that applies the table to requests is not part
    of this model; only the table and its lookup are. */
module FieldAccess {
  import opened Optional

  /** The resources of the table, named as its keys are. */
  datatype Resource = User | News | Notification | Order | Cart | Service | SpecialService | InActiveResource | changeResourceStatus | Collector | Courier | CourierInfo | Parameter | CollectionType | AccessLevel | Role | UserInfo

  datatype Action = CanRead | CanCreate | CanUpdate

  datatype Grants = Grants(canRead: set<string>, canCreate: set<string>, canUpdate: set<string>)

  /** Every resource defines exactly the roles `superAdmin` and `student`,
      each with all three lists. */
  datatype RoleGrants = RoleGrants(superAdmin: Grants, student: Grants)

  /** The roles every resource defines. */
  const Roles: set<string> := {"superAdmin", "student"}

  // One entry per resource, list by list as the configuration states it.

  const UserAccess := RoleGrants(
    superAdmin := Grants(
      canRead := {
        "name", "secondaryEmail", "contactNo", "gender", "programme",
        "userType", "isActive", "requestedServices", "notifications",
        "daiictId", "primaryEmail", "createdOn", "addresses", "userInfo"
      },
      canCreate := {
        "name", "secondaryEmail", "contactNo", "gender", "programme",
        "requestedServices", "daiictId", "primaryEmail", "password"
      },
      canUpdate := {
        "name", "secondaryEmail", "contactNo", "gender", "programme",
        "requestedServices", "password"
      }),
    student := Grants(
      canRead := {
        "name", "secondaryEmail", "contactNo", "gender", "programme",
        "userType", "isActive", "requestedServices", "notifications",
        "daiictId", "primaryEmail", "createdOn", "addresses", "userInfo"
      },
      canCreate := {
        "name", "secondaryEmail", "contactNo", "gender", "programme",
        "requestedServices", "daiictId", "primaryEmail", "password",
        "addresses"
      },
      canUpdate := {
        "name", "secondaryEmail", "contactNo", "gender", "programme",
        "requestedServices", "addresses"
      }))

  const NewsAccess := RoleGrants(
    superAdmin := Grants(
      canRead := {"_id", "message", "createdOn"},
      canCreate := {"message"},
      canUpdate := {"message"}),
    student := Grants(
      canRead := {"message", "createdOn"},
      canCreate := {},
      canUpdate := {}))

  const NotificationAccess := RoleGrants(
    superAdmin := Grants(
      canRead := {"_id", "message", "createdOn"},
      canCreate := {"message"},
      canUpdate := {"message"}),
    student := Grants(
      canRead := {"_id", "message", "createdOn"},
      canCreate := {},
      canUpdate := {}))

  const OrderAccess := RoleGrants(
    superAdmin := Grants(
      canRead := {
        "_id", "requestedBy", "cartId", "service", "serviceName",
        "createdOn", "lastModified", "lastModifiedBy", "serviceCost",
        "parameterCost", "comment", "collectionTypeCost", "totalCost",
        "status", "parameters", "paymentType", "isPaymentDone", "paymentId",
        "delivery", "pickup", "collectionType", "validityErrors",
        "unitsRequested", "cancelReason", "statusChangeTime"
      },
      canCreate := {},
      canUpdate := {"status", "cancelReason", "statusChangeTime"}),
    student := Grants(
      canRead := {
        "_id", "requestedBy", "cartId", "service", "serviceName",
        "createdOn", "lastModified", "serviceCost", "parameterCost",
        "collectionTypeCost", "totalCost", "status", "comment", "parameters",
        "paymentType", "isPaymentDone", "paymentId", "delivery", "pickup",
        "collectionType", "validityErrors", "unitsRequested", "cancelReason",
        "statusChangeTime"
      },
      canCreate := {
        "service", "parameters", "paymentType", "isPaymentDone", "paymentId",
        "comment", "collectionType", "unitsRequested", "delivery", "pickup"
      },
      canUpdate := {
        "paymentType", "isPaymentDone", "paymentId", "comment", "delivery",
        "pickup", "unitsRequested"
      }))

  const CartAccess := RoleGrants(
    superAdmin := Grants(
      canRead := {
        "_id", "orderId", "requestedBy", "orders", "createdOn",
        "lastModified", "lastModifiedBy", "collectionTypeCost", "ordersCost",
        "totalCost", "status", "paymentType", "isPaymentDone", "paymentId",
        "paymentCode", "delivery", "pickup", "collectionType",
        "validityErrors", "cancelReason", "statusChangeTime"
      },
      canCreate := {},
      canUpdate := {"status", "cancelReason", "statusChangeTime"}),
    student := Grants(
      canRead := {
        "_id", "orderId", "requestedBy", "orders", "createdOn",
        "lastModified", "lastModifiedBy", "collectionTypeCost", "ordersCost",
        "totalCost", "status", "paymentType", "isPaymentDone", "paymentId",
        "paymentCode", "delivery", "pickup", "collectionType",
        "validityErrors", "cancelReason", "statusChangeTime"
      },
      canCreate := {
        "orders", "paymentType", "isPaymentDone", "paymentId", "delivery",
        "pickup", "collectionType"
      },
      canUpdate := {
        "paymentType", "isPaymentDone", "paymentId", "delivery", "pickup",
        "statusChangeTime"
      }))

  const ServiceAccess := RoleGrants(
    superAdmin := Grants(
      canRead := {
        "_id", "name", "description", "createdOn", "createdBy",
        "isApplicationSpecific", "isSpecialService", "isActive", "maxUnits",
        "baseCharge", "availableParameters", "specialServiceUsers",
        "availablePaymentModes", "collectionTypes", "allowedUserTypes",
        "allowedProgrammes", "allowedBatches"
      },
      canCreate := {
        "name", "description", "isApplicationSpecific",
        "isAvailableForAlumni", "isCourierAvailable", "isSpecialService",
        "isActive", "maxUnits", "baseCharge", "availableParameters",
        "specialServiceUsers", "availablePaymentModes", "collectionTypes",
        "allowedUserTypes", "allowedProgrammes", "allowedBatches"
      },
      canUpdate := {
        "name", "description", "isApplicationSpecific",
        "isAvailableForAlumni", "isCourierAvailable", "isSpecialService",
        "isActive", "maxUnits", "baseCharge", "availableParameters",
        "specialServiceUsers", "availablePaymentModes", "collectionTypes",
        "allowedUserTypes", "allowedProgrammes", "allowedBatches"
      }),
    student := Grants(
      canRead := {
        "_id", "name", "description", "maxUnits", "baseCharge",
        "availableParameters", "availablePaymentModes", "collectionTypes"
      },
      canCreate := {},
      canUpdate := {}))

  const SpecialServiceAccess := RoleGrants(
    superAdmin := Grants(
      canRead := {"*"},
      canCreate := {},
      canUpdate := {}),
    student := Grants(
      canRead := {},
      canCreate := {},
      canUpdate := {}))

  const InActiveResourceAccess := RoleGrants(
    superAdmin := Grants(
      canRead := {"*"},
      canCreate := {},
      canUpdate := {}),
    student := Grants(
      canRead := {},
      canCreate := {},
      canUpdate := {}))

  const ChangeResourceStatusAccess := RoleGrants(
    superAdmin := Grants(
      canRead := {},
      canCreate := {},
      canUpdate := {"*"}),
    student := Grants(
      canRead := {},
      canCreate := {},
      canUpdate := {}))

  const CollectorAccess := RoleGrants(
    superAdmin := Grants(
      canRead := {
        "_id", "name", "daiictId", "contactNo", "email", "collectionCode",
        "createdOn", "createdBy", "orderId", "status"
      },
      canCreate := {},
      canUpdate := {}),
    student := Grants(
      canRead := {
        "_id", "name", "daiictId", "contactNo", "email", "collectionCode",
        "orderId", "status"
      },
      canCreate := {"name", "daiictId", "contactNo", "email"},
      canUpdate := {"name", "daiictId", "contactNo", "email"}))

  const CourierAccess := RoleGrants(
    superAdmin := Grants(
      canRead := {
        "_id", "name", "contactNo", "email", "address", "city", "state",
        "country", "createdOn", "createdBy", "pinCode", "trackingId",
        "courierServiceName", "orderId", "status"
      },
      canCreate := {},
      canUpdate := {}),
    student := Grants(
      canRead := {
        "_id", "name", "contactNo", "email", "address", "city", "state",
        "country", "pinCode", "trackingId", "courierServiceName", "orderId",
        "status"
      },
      canCreate := {
        "name", "contactNo", "email", "address", "city", "state", "country",
        "pinCode"
      },
      canUpdate := {
        "name", "contactNo", "email", "address", "city", "state", "country",
        "pinCode"
      }))

  const CourierInfoAccess := RoleGrants(
    superAdmin := Grants(
      canRead := {},
      canCreate := {},
      canUpdate := {}),
    student := Grants(
      canRead := {
        "_id", "name", "contactNo", "email", "address", "city", "state",
        "country", "pinCode"
      },
      canCreate := {
        "name", "contactNo", "email", "address", "city", "state", "country",
        "pinCode"
      },
      canUpdate := {
        "name", "contactNo", "email", "address", "city", "state", "country",
        "pinCode"
      }))

  const ParameterAccess := RoleGrants(
    superAdmin := Grants(
      canRead := {
        "_id", "name", "description", "baseCharge", "createdOn", "createdBy",
        "isActive"
      },
      canCreate := {"_id", "name", "description", "baseCharge"},
      canUpdate := {"name", "description", "baseCharge", "isActive"}),
    student := Grants(
      canRead := {"_id", "name", "description", "baseCharge", "isActive"},
      canCreate := {},
      canUpdate := {}))

  const CollectionTypeAccess := RoleGrants(
    superAdmin := Grants(
      canRead := {
        "_id", "name", "description", "baseCharge", "createdOn", "createdBy",
        "isActive", "category"
      },
      canCreate := {"_id", "name", "description", "baseCharge", "category"},
      canUpdate := {"name", "description", "baseCharge", "isActive", "category"}),
    student := Grants(
      canRead := {"_id", "name", "description", "baseCharge", "category"},
      canCreate := {},
      canUpdate := {}))

  const AccessLevelAccess := RoleGrants(
    superAdmin := Grants(
      canRead := {},
      canCreate := {},
      canUpdate := {}),
    student := Grants(
      canRead := {},
      canCreate := {},
      canUpdate := {}))

  const RoleAccess := RoleGrants(
    superAdmin := Grants(
      canRead := {},
      canCreate := {},
      canUpdate := {}),
    student := Grants(
      canRead := {},
      canCreate := {},
      canUpdate := {}))

  const UserInfoAccess := RoleGrants(
    superAdmin := Grants(
      canRead := {
        "_id", "user_inst_id", "user_type", "user_first_name",
        "user_last_name", "user_sex", "user_email_id", "user_status",
        "user_adr_contact_name", "user_adr_line1", "user_adr_line2",
        "user_adr_line3", "user_adr_city", "user_adr_district",
        "user_adr_state", "user_adr_country", "user_adr_pincode",
        "user_adr_telno", "user_adr_mobileno", "user_adr_emailid",
        "user_batch", "user_programme"
      },
      canCreate := {
        "user_inst_id", "user_type", "user_first_name", "user_last_name",
        "user_sex", "user_email_id", "user_status", "user_adr_contact_name",
        "user_adr_line1", "user_adr_line2", "user_adr_line3",
        "user_adr_city", "user_adr_district", "user_adr_state",
        "user_adr_country", "user_adr_pincode", "user_adr_telno",
        "user_adr_mobileno", "user_adr_emailid", "user_batch",
        "user_programme"
      },
      canUpdate := {
        "user_inst_id", "user_type", "user_first_name", "user_last_name",
        "user_sex", "user_email_id", "user_status", "user_adr_contact_name",
        "user_adr_line1", "user_adr_line2", "user_adr_line3",
        "user_adr_city", "user_adr_district", "user_adr_state",
        "user_adr_country", "user_adr_pincode", "user_adr_telno",
        "user_adr_mobileno", "user_adr_emailid", "user_batch",
        "user_programme"
      }),
    student := Grants(
      canRead := {
        "user_inst_id", "user_type", "user_first_name", "user_last_name",
        "user_sex", "user_email_id", "user_status", "user_adr_contact_name",
        "user_adr_line1", "user_adr_line2", "user_adr_line3",
        "user_adr_city", "user_adr_district", "user_adr_state",
        "user_adr_country", "user_adr_pincode", "user_adr_telno",
        "user_adr_mobileno", "user_adr_emailid", "user_batch",
        "user_programme"
      },
      canCreate := {},
      canUpdate := {}))

  /** The table itself: one entry per resource. */
  const Table: map<Resource, RoleGrants> := map[
    Resource.User := UserAccess,
    Resource.News := NewsAccess,
    Resource.Notification := NotificationAccess,
    Resource.Order := OrderAccess,
    Resource.Cart := CartAccess,
    Resource.Service := ServiceAccess,
    Resource.SpecialService := SpecialServiceAccess,
    Resource.InActiveResource := InActiveResourceAccess,
    Resource.changeResourceStatus := ChangeResourceStatusAccess,
    Resource.Collector := CollectorAccess,
    Resource.Courier := CourierAccess,
    Resource.CourierInfo := CourierInfoAccess,
    Resource.Parameter := ParameterAccess,
    Resource.CollectionType := CollectionTypeAccess,
    Resource.AccessLevel := AccessLevelAccess,
    Resource.Role := RoleAccess,
    Resource.UserInfo := UserInfoAccess
  ]

  /** The list of one action in a role's grants. */
  function Select(grants: Grants, action: Action): set<string> {
    match action
    case CanRead => grants.canRead
    case CanCreate => grants.canCreate
    case CanUpdate => grants.canUpdate
  }

  /** The table has an entry for every resource. */
  lemma TableIsTotal(res: Resource)
    ensures res in Table
  {
    match res
    case User =>
    case News =>
    case Notification =>
    case Order =>
    case Cart =>
    case Service =>
    case SpecialService =>
    case InActiveResource =>
    case changeResourceStatus =>
    case Collector =>
    case Courier =>
    case CourierInfo =>
    case Parameter =>
    case CollectionType =>
    case AccessLevel =>
    case Role =>
    case UserInfo =>
  }

  /** The fields `role` may act on for `res`; `None` for a role the table
      does not define. */
  function Lookup(res: Resource, role: string, action: Action): (fields: Option<set<string>>)
    ensures fields.Some? <==> role in Roles
  {
    TableIsTotal(res);
    if role == "superAdmin" then Some(Select(Table[res].superAdmin, action))
    else if role == "student" then Some(Select(Table[res].student, action))
    else None
  }

  /** The `admin` role that sign-in can derive has no entry anywhere. */
  lemma NoAdminEntry(res: Resource, action: Action)
    ensures Lookup(res, "admin", action).None?
  {
  }

  /** No list of `access` holds the wildcard. */
  predicate WildcardFree(access: RoleGrants) {
    && "*" !in access.superAdmin.canRead && "*" !in access.superAdmin.canCreate && "*" !in access.superAdmin.canUpdate
    && "*" !in access.student.canRead && "*" !in access.student.canCreate && "*" !in access.student.canUpdate
  }

  /** Every entry but the three administrative views is free of the wildcard. */
  lemma WildcardFreeEntries()
    ensures WildcardFree(UserAccess) && WildcardFree(NewsAccess) && WildcardFree(NotificationAccess)
    ensures WildcardFree(OrderAccess) && WildcardFree(CartAccess) && WildcardFree(ServiceAccess)
    ensures WildcardFree(CollectorAccess) && WildcardFree(CourierAccess) && WildcardFree(CourierInfoAccess)
    ensures WildcardFree(ParameterAccess) && WildcardFree(CollectionTypeAccess) && WildcardFree(AccessLevelAccess)
    ensures WildcardFree(RoleAccess) && WildcardFree(UserInfoAccess)
  {
  }

  /** A student is never granted the wildcard. */
  lemma StudentNeverGetsWildcard(res: Resource, action: Action)
    ensures "*" !in Lookup(res, "student", action).value
  {
    WildcardFreeEntries();
  }

  /** The wildcard is granted in exactly three places: reading special
      services and inactive resources, and changing a resource's status, all
      to `superAdmin`. */
  lemma WildcardPlacement(res: Resource, role: string, action: Action)
    ensures (Lookup(res, role, action).Some? && "*" in Lookup(res, role, action).value) <==>
      || (res == Resource.SpecialService && role == "superAdmin" && action == CanRead)
      || (res == Resource.InActiveResource && role == "superAdmin" && action == CanRead)
      || (res == Resource.changeResourceStatus && role == "superAdmin" && action == CanUpdate)
  {
    StudentNeverGetsWildcard(res, action);
    WildcardFreeEntries();
  }

  /** A student gets nothing on the administrative resources. */
  lemma StudentLockedOut(res: Resource, action: Action)
    requires res in {Resource.SpecialService, Resource.InActiveResource, Resource.changeResourceStatus,
                     Resource.AccessLevel, Resource.Role}
    ensures Lookup(res, "student", action) == Some({})
  {
  }

  /** An administrator may only move an order or a cart through its status
      (with the reason and the stamps), and creates neither. */
  lemma AdminWorkflowFields(res: Resource)
    requires res == Resource.Order || res == Resource.Cart
    ensures Lookup(res, "superAdmin", CanCreate) == Some({})
    ensures Lookup(res, "superAdmin", CanUpdate) == Some({"status", "cancelReason", "statusChangeTime"})
  {
  }

  /** A student may not write an order's status or costs. */
  lemma StudentCannotPriceOrders()
    ensures var update := Lookup(Resource.Order, "student", CanUpdate).value;
      "status" !in update && "serviceCost" !in update && "parameterCost" !in update && "totalCost" !in update
  {
  }

  /** A student may update only order fields they can also read. */
  lemma StudentUpdatesWhatTheyRead()
    ensures Lookup(Resource.Order, "student", CanUpdate).value <= Lookup(Resource.Order, "student", CanRead).value
  {
  }

  /** The password can be written by an administrator but is read by no role. */
  lemma PasswordNeverRead(role: string)
    ensures "password" in Lookup(Resource.User, "superAdmin", CanCreate).value
    ensures "password" in Lookup(Resource.User, "superAdmin", CanUpdate).value
    ensures role in Roles ==> "password" !in Lookup(Resource.User, role, CanRead).value
  {
  }

  /** A student can only read the catalogue, news, notifications and the
      institute records. */
  lemma StudentReadsOnly(res: Resource)
    requires res in {Resource.News, Resource.Notification, Resource.Service, Resource.Parameter,
                     Resource.CollectionType, Resource.UserInfo}
    ensures Lookup(res, "student", CanCreate) == Some({})
    ensures Lookup(res, "student", CanUpdate) == Some({})
  {
  }
}
