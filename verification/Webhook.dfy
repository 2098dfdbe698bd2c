/** The onboarding webhook (`POST`): a JSON body with email, name and
    voucher code becomes an auth user and a creator row. Every path ends in
    a JSON response with status 200, 400, 409 or 500. */
module Webhook {
  import opened Wrappers
  import opened Text

  /** A field of the parsed body; `Undefined` is a missing field and
      `Composite` an array or object. */
  datatype JsonValue = Undefined | Null | Bool(b: bool) | Number(n: real) | Str(s: string) | Composite

  /** JavaScript truthiness of a field (NaN cannot be parsed from JSON). */
  predicate Truthy(v: JsonValue) {
    match v
    case Undefined => false
    case Null => false
    case Bool(b) => b
    case Number(n) => n != 0.0
    case Str(s) => s != []
    case Composite => true
  }

  /** What the `catch` block receives: an `Error` with its message, or any
      other thrown value. */
  datatype Thrown = ErrorValue(message: string) | OtherValue

  /** The message the `catch` block answers with. */
  function CaughtMessage(t: Thrown): string {
    match t
    case ErrorValue(message) => message
    case OtherValue => "An unexpected error occurred"
  }

  /** The request body: its three fields, or what reading it threw (invalid
      JSON, a `null` body). */
  datatype RequestBody = Unreadable(thrown: Thrown) | Fields(email: JsonValue, name: JsonValue, voucher_code: JsonValue)

  /** `auth.admin.createUser`: an error (whose message may be absent), a new
      user, a result with neither an error nor a user (reading its `id` then
      throws a `TypeError`, given here by its message), or an exception. */
  datatype AuthResult =
    | AuthFailed(message: Option<string>)
    | Created(userId: string)
    | CreatedWithoutUser(typeError: string)
    | AuthThrew(thrown: Thrown)

  /** The creators insert: done, refused with a code and message, or thrown. */
  datatype InsertResult = Inserted | InsertFailed(code: string, message: string) | InsertThrew(thrown: Thrown)

  /** The creator row the webhook inserts: the body's fields as received. */
  datatype WebhookRow = WebhookRow(id: string, email: JsonValue, name: JsonValue, voucher_code: JsonValue)

  datatype ResponseBody = ErrorBody(error: string) | SuccessBody(user_id: string)

  /** The response, the auth user left behind, and the row inserted. */
  datatype Outcome = Outcome(status: int, body: ResponseBody, createdUser: Option<string>, inserted: Option<WebhookRow>)

  /** A template literal renders an absent message as "undefined". */
  function Render(m: Option<string>): string {
    if m.Some? then m.value else "undefined"
  }

  /** The auth error that means the address is taken. */
  predicate AlreadyRegistered(m: Option<string>) {
    m.Some? && (Contains(m.value, "already been registered") || Contains(m.value, "already exists"))
  }

  /** The three required fields are all present and truthy. */
  predicate HasRequiredFields(body: RequestBody) {
    body.Fields? && Truthy(body.email) && Truthy(body.name) && Truthy(body.voucher_code)
  }

  function Post(body: RequestBody, auth: AuthResult, insert: InsertResult): (r: Outcome)
    ensures r.status in {200, 400, 409, 500}
    ensures body.Unreadable? ==> r == Outcome(500, ErrorBody(CaughtMessage(body.thrown)), None, None)
    ensures body.Fields? && !HasRequiredFields(body) ==>
      r == Outcome(400, ErrorBody("Missing required fields: email, name, voucher_code"), None, None)
    ensures HasRequiredFields(body) && auth.AuthThrew? ==> r == Outcome(500, ErrorBody(CaughtMessage(auth.thrown)), None, None)
    ensures HasRequiredFields(body) && auth.AuthFailed? && AlreadyRegistered(auth.message) ==>
      r == Outcome(409, ErrorBody("A user with this email already exists"), None, None)
    ensures HasRequiredFields(body) && auth.AuthFailed? && !AlreadyRegistered(auth.message) ==>
      r == Outcome(500, ErrorBody("Auth error: " + Render(auth.message)), None, None)
    ensures HasRequiredFields(body) && auth.CreatedWithoutUser? ==> r == Outcome(500, ErrorBody(auth.typeError), None, None)
    ensures HasRequiredFields(body) && auth.Created? && insert.InsertFailed? && insert.code == "23505" ==>
      r == Outcome(409, ErrorBody("Duplicate entry — email or voucher code already exists"), Some(auth.userId), None)
    ensures HasRequiredFields(body) && auth.Created? && insert.InsertFailed? && insert.code != "23505" ==>
      r == Outcome(500, ErrorBody("Database error: " + insert.message), Some(auth.userId), None)
    ensures HasRequiredFields(body) && auth.Created? && insert.InsertThrew? ==>
      r == Outcome(500, ErrorBody(CaughtMessage(insert.thrown)), Some(auth.userId), None)
    ensures r.status == 409 <==> (HasRequiredFields(body) &&
      ((auth.AuthFailed? && AlreadyRegistered(auth.message)) || (auth.Created? && insert.InsertFailed? && insert.code == "23505")))
    ensures r.createdUser.Some? <==> HasRequiredFields(body) && auth.Created?
    ensures r.createdUser.Some? ==> r.createdUser.value == auth.userId
    ensures r.status == 200 <==> r.inserted.Some?
    ensures r.status == 200 <==> r.createdUser.Some? && insert.Inserted?
    ensures r.status == 200 ==> (r.body == SuccessBody(auth.userId)
      && r.inserted == Some(WebhookRow(auth.userId, body.email, body.name, body.voucher_code)))
  {
    match body
    case Unreadable(thrown) => Outcome(500, ErrorBody(CaughtMessage(thrown)), None, None)
    case Fields(email, name, voucher_code) =>
      if !HasRequiredFields(body) then
        Outcome(400, ErrorBody("Missing required fields: email, name, voucher_code"), None, None)
      else
        match auth
        case AuthThrew(thrown) => Outcome(500, ErrorBody(CaughtMessage(thrown)), None, None)
        case CreatedWithoutUser(typeError) => Outcome(500, ErrorBody(typeError), None, None)
        case AuthFailed(message) =>
          if AlreadyRegistered(message) then Outcome(409, ErrorBody("A user with this email already exists"), None, None)
          else Outcome(500, ErrorBody("Auth error: " + Render(message)), None, None)
        case Created(userId) =>
          match insert
          case InsertThrew(thrown) => Outcome(500, ErrorBody(CaughtMessage(thrown)), Some(userId), None)
          case InsertFailed(code, message) =>
            if code == "23505" then
              Outcome(409, ErrorBody("Duplicate entry — email or voucher code already exists"), Some(userId), None)
            else Outcome(500, ErrorBody("Database error: " + message), Some(userId), None)
          case Inserted =>
            Outcome(200, SuccessBody(userId), Some(userId), Some(WebhookRow(userId, email, name, voucher_code)))
  }

  /** An insert that fails or throws leaves the new auth user in place. */
  lemma NoRollback(email: JsonValue, name: JsonValue, voucher: JsonValue, userId: string, insert: InsertResult)
    requires HasRequiredFields(Fields(email, name, voucher)) && !insert.Inserted?
    ensures var r := Post(Fields(email, name, voucher), Created(userId), insert);
      r.status != 200 && r.createdUser == Some(userId) && r.inserted.None?
  {
  }

  /** Unlike the sign-up form, the webhook stores the voucher code exactly as
      received: a lower-case code stays lower-case. */
  lemma VoucherStoredAsReceived(userId: string)
    ensures Post(Fields(Str("a@b.c"), Str("Ann"), Str("ann10")), Created(userId), Inserted).inserted.value.voucher_code == Str("ann10")
  {
  }
}
