/**
 * The HTTP mapping of the five user routes: presence validation, defaulting of
 * optional fields to `null`, and the mapping of each data-access outcome to a
 * status code and a JSON envelope.
 */
module UserRoutes {
  import opened Wrappers
  import opened UserModel

  // ---------------------------------------------------------------------------
  // Requests and responses
  // ---------------------------------------------------------------------------

  /** The members of `req.body` a handler destructures; `None` is a missing or `null` member. */
  datatype Body = Body(
    firstName: Option<string>,
    lastName: Option<string>,
    email: Option<string>,
    phone: Option<string>,
    company: Option<string>,
    role: Option<string>,
    country: Option<string>)

  /** What `data` holds: the list of users, or one user. */
  datatype Data = UserList(users: seq<User>) | OneUser(user: User)

  /** The JSON envelope `{ success, data?, error?, details?, message?, total? }`. */
  datatype Envelope = Envelope(
    success: bool,
    data: Option<Data>,
    error: Option<string>,
    details: Option<string>,
    message: Option<string>,
    total: Option<int>)

  datatype Response = Response(status: int, body: Envelope)

  const MissingFieldsError := "Missing required fields: firstName, lastName, email"
  const NotFoundError := "User not found"

  /** Success and failure envelopes are told apart by `success`, and agree with the status. */
  predicate WellFormed(r: Response) {
    && (r.body.success <==> 200 <= r.status < 300)
    && (r.body.success ==> r.body.error.None? && r.body.details.None?)
    && (!r.body.success ==> r.body.error.Some? && r.body.data.None?)
  }

  /** The 500 answer to an error the model threw, carrying the error's message in `details`. */
  predicate ReportsFailure(r: Response, message: string) {
    r.status == 500 && !r.body.success && r.body.details == Some(message)
  }

  function Ok(status: int, data: Option<Data>, message: Option<string>, total: Option<int>): Response {
    Response(status, Envelope(true, data, None, None, message, total))
  }

  function Failure(status: int, error: string, details: Option<string>): Response {
    Response(status, Envelope(false, None, Some(error), details, None, None))
  }

  // ---------------------------------------------------------------------------
  // Validation and defaulting (POST and PUT)
  // ---------------------------------------------------------------------------

  /** JavaScript falsiness of a body member: missing, `null` or the empty string. */
  predicate Falsy(v: Option<string>)
    ensures Falsy(v) <==> v.GetOr("") == ""
  {
    v.None? || v.value == ""
  }

  /** `v || null` */
  function OrNull(v: Option<string>): (r: Option<string>)
    ensures r.None? <==> Falsy(v)
    ensures r.Some? ==> r == v && r.value != ""
  {
    if Falsy(v) then None else v
  }

  /**
   * The fields handed to the model, or `None` when `!firstName || !lastName || !email`
   * makes the handler answer 400 instead.
   */
  function Required(b: Body): (r: Option<UserFields>)
    ensures r.None? <==> Falsy(b.firstName) || Falsy(b.lastName) || Falsy(b.email)
    ensures r.Some? ==>
              && r.value.firstName == b.firstName.value != ""
              && r.value.lastName == b.lastName.value != ""
              && r.value.email == b.email.value != ""
    ensures r.Some? ==>
              && (r.value.phone.None? <==> Falsy(b.phone))
              && (r.value.company.None? <==> Falsy(b.company))
              && (r.value.role.None? <==> Falsy(b.role))
              && (r.value.country.None? <==> Falsy(b.country))
    ensures r.Some? ==>
              && (r.value.phone.Some? ==> r.value.phone == b.phone)
              && (r.value.company.Some? ==> r.value.company == b.company)
              && (r.value.role.Some? ==> r.value.role == b.role)
              && (r.value.country.Some? ==> r.value.country == b.country)
  {
    if Falsy(b.firstName) || Falsy(b.lastName) || Falsy(b.email) then None
    else Some(UserFields(b.firstName.value, b.lastName.value, b.email.value,
                         OrNull(b.phone), OrNull(b.company), OrNull(b.role), OrNull(b.country)))
  }

  // ---------------------------------------------------------------------------
  // Outcome to response, one function per route
  // ---------------------------------------------------------------------------

  /** GET / */
  function ListResponse(outcome: Completion<seq<User>>): (r: Response)
    ensures WellFormed(r)
    ensures r.status == 200 <==> outcome.Returned?
    ensures outcome.Returned? ==> r.body.data == Some(UserList(outcome.value))
    ensures r.body.success ==> r.body.message.None?
    ensures r.body.success ==>
              && r.body.data.Some? && r.body.data.value.UserList?
              && r.body.total == Some(|r.body.data.value.users|)
    ensures outcome.Threw? ==>
              ReportsFailure(r, outcome.message) && r.body.error == Some("Failed to fetch users")
  {
    match outcome
    case Returned(users) => Ok(200, Some(UserList(users)), None, Some(|users|))
    case Threw(message) => Failure(500, "Failed to fetch users", Some(message))
  }

  /** GET /:id */
  function GetResponse(outcome: Completion<Option<User>>): (r: Response)
    ensures WellFormed(r)
    ensures r.status == 404 <==> outcome == Returned(None)
    ensures r.status == 404 ==> r.body.error == Some(NotFoundError)
    ensures r.status == 200 <==> outcome.Returned? && outcome.value.Some?
    ensures r.status == 200 ==> r.body.data == Some(OneUser(outcome.value.value))
    ensures r.body.message.None? && r.body.total.None?
    ensures outcome.Threw? ==>
              ReportsFailure(r, outcome.message) && r.body.error == Some("Failed to fetch user")
  {
    match outcome
    case Returned(None) => Failure(404, NotFoundError, None)
    case Returned(Some(user)) => Ok(200, Some(OneUser(user)), None, None)
    case Threw(message) => Failure(500, "Failed to fetch user", Some(message))
  }

  /** POST /: `outcome` is what `createUser` did, and is not looked at when validation fails. */
  function PostResponse(b: Body, outcome: Completion<User>): (r: Response)
    ensures WellFormed(r)
    ensures r.status == 400 <==> Required(b).None?
    ensures r.status == 400 ==> r.body.error == Some(MissingFieldsError)
    ensures r.status == 201 <==> Required(b).Some? && outcome.Returned?
    ensures r.status == 201 ==>
              r.body.data == Some(OneUser(outcome.value)) &&
              r.body.message == Some("User created successfully") && r.body.total.None?
    ensures Required(b).Some? && outcome.Threw? ==>
              ReportsFailure(r, outcome.message) && r.body.error == Some("Failed to create user")
  {
    if Required(b).None? then Failure(400, MissingFieldsError, None)
    else match outcome
      case Returned(user) => Ok(201, Some(OneUser(user)), Some("User created successfully"), None)
      case Threw(message) => Failure(500, "Failed to create user", Some(message))
  }

  /** PUT /:id: there is no 404; a valid update that does not throw always answers 200. */
  function PutResponse(b: Body, outcome: Completion<User>): (r: Response)
    ensures WellFormed(r)
    ensures r.status in {200, 400, 500}
    ensures r.status == 400 <==> Required(b).None?
    ensures r.status == 400 ==> r.body.error == Some(MissingFieldsError)
    ensures r.status == 200 <==> Required(b).Some? && outcome.Returned?
    ensures r.status == 200 ==>
              r.body.data == Some(OneUser(outcome.value)) &&
              r.body.message == Some("User updated successfully") && r.body.total.None?
    ensures Required(b).Some? && outcome.Threw? ==>
              ReportsFailure(r, outcome.message) && r.body.error == Some("Failed to update user")
  {
    if Required(b).None? then Failure(400, MissingFieldsError, None)
    else match outcome
      case Returned(user) => Ok(200, Some(OneUser(user)), Some("User updated successfully"), None)
      case Threw(message) => Failure(500, "Failed to update user", Some(message))
  }

  /** DELETE /:id */
  function DeleteResponse(outcome: Completion<bool>): (r: Response)
    ensures WellFormed(r)
    ensures r.status == 404 <==> outcome == Returned(false)
    ensures r.status == 404 ==> r.body.error == Some(NotFoundError)
    ensures r.status == 200 <==> outcome == Returned(true)
    ensures r.status == 200 ==> r.body.message == Some("User deleted successfully") && r.body.data.None?
    ensures r.body.total.None?
    ensures outcome.Threw? ==>
              ReportsFailure(r, outcome.message) && r.body.error == Some("Failed to delete user")
  {
    match outcome
    case Returned(false) => Failure(404, NotFoundError, None)
    case Returned(true) => Ok(200, None, Some("User deleted successfully"), None)
    case Threw(message) => Failure(500, "Failed to delete user", Some(message))
  }

  /** A request that fails validation gets the same 400 whatever the model would have done. */
  lemma InvalidBodyIgnoresModel(b: Body, o1: Completion<User>, o2: Completion<User>)
    requires Falsy(b.firstName) || Falsy(b.lastName) || Falsy(b.email)
    ensures PostResponse(b, o1) == PostResponse(b, o2) == Failure(400, MissingFieldsError, None)
    ensures PutResponse(b, o1) == PutResponse(b, o2) == Failure(400, MissingFieldsError, None)
  {
  }

  // ---------------------------------------------------------------------------
  // The handlers: validation, the model call, the response
  // ---------------------------------------------------------------------------

  /** `outcome` as the model produces it when `fault` happens. */
  function Outcome<T>(fault: Fault, value: T): Completion<T> {
    if fault.NoFault? then Returned(value) else Threw(fault.message)
  }

  method HandleList(db: Database, fault: Fault) returns (resp: Response)
    modifies db
    ensures db.table == old(db.table) && db.nextId == old(db.nextId)
    ensures db.outstanding == old(db.outstanding)
    ensures resp == ListResponse(Outcome(fault, Listing(db.table)))
  {
    var outcome := db.GetAllUsers(fault);
    resp := ListResponse(outcome);
  }

  method HandleGet(db: Database, id: int, fault: Fault) returns (resp: Response)
    modifies db
    ensures db.table == old(db.table) && db.nextId == old(db.nextId)
    ensures db.outstanding == old(db.outstanding)
    ensures resp == GetResponse(Outcome(fault, if id in db.table then Some(User(id, db.table[id])) else None))
  {
    var outcome := db.GetUserById(id, fault);
    resp := GetResponse(outcome);
  }

  method HandlePost(db: Database, b: Body, fault: Fault) returns (resp: Response)
    requires db.Valid()
    modifies db
    ensures db.Valid() && db.outstanding == old(db.outstanding)
    ensures Required(b).None? ==>
              resp == Failure(400, MissingFieldsError, None) &&
              db.table == old(db.table) && db.nextId == old(db.nextId)
    ensures Required(b).Some? ==>
              resp == PostResponse(b, Outcome(fault, User(old(db.nextId), Required(b).value)))
    ensures Required(b).Some? && fault.NoFault? ==>
              && old(db.nextId) !in old(db.table)
              && db.table == old(db.table)[old(db.nextId) := Required(b).value]
    ensures !fault.NoFault? ==> db.table == old(db.table)
  {
    var fields := Required(b);
    if fields.None? {
      return Failure(400, MissingFieldsError, None);
    }
    var outcome := db.CreateUser(fields.value, fault);
    resp := PostResponse(b, outcome);
  }

  method HandlePut(db: Database, id: int, b: Body, fault: Fault) returns (resp: Response)
    requires db.Valid()
    modifies db
    ensures db.Valid() && db.outstanding == old(db.outstanding) && db.nextId == old(db.nextId)
    ensures Required(b).None? ==>
              resp == Failure(400, MissingFieldsError, None) && db.table == old(db.table)
    ensures Required(b).Some? ==>
              resp == PutResponse(b, Outcome(fault, User(id, Required(b).value)))
    ensures Required(b).Some? && fault.NoFault? ==>
              db.table == if id in old(db.table) then old(db.table)[id := Required(b).value] else old(db.table)
    ensures !fault.NoFault? ==> db.table == old(db.table)
  {
    var fields := Required(b);
    if fields.None? {
      return Failure(400, MissingFieldsError, None);
    }
    var outcome := db.UpdateUser(id, fields.value, fault);
    resp := PutResponse(b, outcome);
  }

  method HandleDelete(db: Database, id: int, fault: Fault) returns (resp: Response)
    requires db.Valid()
    modifies db
    ensures db.Valid() && db.outstanding == old(db.outstanding) && db.nextId == old(db.nextId)
    ensures resp == DeleteResponse(Outcome(fault, id in old(db.table)))
    ensures db.table == if fault.NoFault? then old(db.table) - {id} else old(db.table)
  {
    var outcome := db.DeleteUser(id, fault);
    resp := DeleteResponse(outcome);
  }

  // ---------------------------------------------------------------------------
  // Request sequences
  // ---------------------------------------------------------------------------

  /** Creating a user and then reading it back returns the stored fields under a fresh id. */
  method CreateThenGet(db: Database, b: Body) returns (created: Response, fetched: Response)
    requires db.Valid() && Required(b).Some?
    modifies db
    ensures created.status == 201 && fetched.status == 200
    ensures created.body.data == fetched.body.data == Some(OneUser(User(old(db.nextId), Required(b).value)))
    ensures old(db.nextId) !in old(db.table) && old(db.nextId) >= 1
  {
    var id := db.nextId;
    created := HandlePost(db, b, NoFault);
    fetched := HandleGet(db, id, NoFault);
  }

  /** After a delete, the id reads as 404 and a second delete answers 404 too. */
  method DeleteThenRetry(db: Database, id: int) returns (first: Response, fetched: Response, second: Response)
    requires db.Valid()
    modifies db
    ensures first.status == (if id in old(db.table) then 200 else 404)
    ensures fetched.status == 404 && second.status == 404
  {
    first := HandleDelete(db, id, NoFault);
    fetched := HandleGet(db, id, NoFault);
    second := HandleDelete(db, id, NoFault);
  }
}
