/** Shared vocabulary of the ride backend: optional request fields, the
    outcome of a handler, the roles and the authenticated caller. */
module Common {

  datatype Option<+T> = None | Some(value: T)

  /** The three account kinds; the role carried in a login token. */
  datatype Role = Student | Driver | Admin

  /** The authenticated caller, as decoded from the login token's claims `{id, role}`. */
  datatype Principal = Principal(id: int, role: Role)

  /** Why a request was refused with HTTP 400 "bad input". */
  datatype Reason =
    | MissingLocations     // pickup or destination absent or empty
    | MissingRideId        // rideId absent or falsy
    | InvalidStatus        // target status not one of the settable three
    | MissingFields        // registration without name, email or password
    | InvalidRole          // registration role not STUDENT, DRIVER or ADMIN
    | EmailExists          // email already held by some account table
    | InvalidPlate         // driver plate number absent or malformed
    | MissingCredentials   // login without email or password

  /** A handler's refusal, one constructor per HTTP error response. */
  datatype Error =
    | InvalidInput(reason: Reason)  // 400
    | NotAvailable                  // 400: the ride is not PENDING
    | Forbidden                     // 403
    | NotFound                      // 404
    | InvalidCredentials            // 401

  datatype Result<+T> = Ok(value: T) | Err(error: Error)

  /** JavaScript truthiness of an optional string field: present and not "". */
  predicate Present(s: Option<string>)
  {
    s.Some? && s.value != ""
  }
}
