/** A value that may be absent: a field the document does not set, a query
    parameter the request does not carry, a record the store does not hold. */
module Optional {

  datatype Option<+T> = None | Some(value: T)
}
