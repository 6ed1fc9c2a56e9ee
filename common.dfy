/** Shared vocabulary of the purchasing service: identifiers, optional values and
    the error outcomes the operations can end in. */
module Common {

  /** A UUID column. Identifiers are opaque; only their order matters (links are
      listed by product id ascending). */
  type Uuid = nat

  datatype Option<+T> = None | Some(value: T)

  /** Every way an operation of the core can refuse a request. */
  datatype Error =
    | InvalidSupplier                       // supplier missing or inactive when ordering
    | EmptyOrder                            // order without line items
    | UnofferedProducts(missing: set<Uuid>) // products without a catalog link
    | InvalidTransition                     // state guard of a transition violated
    | OrderNotFound
    | SupplierNotFound
    | LinkNotFound
    | DocumentConflict                      // (documento, pais) already taken
    | CodeConflict                          // store-level uniqueness of the order code
    | SupplierHasOrders                     // store-level restriction on deleting a supplier

  datatype Result<+T> = Ok(value: T) | Err(error: Error)
}
