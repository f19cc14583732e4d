/** The five payment endpoints as guard chains: each checks the caller,
    then the body, then any referenced package, then calls the payment
    engine and maps the outcome to an HTTP status and a JSON body.

    Collaborators are inputs: the current-user lookup, the package lookup
    and the engine call are functions of their arguments, and a thrown
    error is an `Err`.  A body that is not JSON is `Err` as well. */
module Routes {
  import opened Common
  import opened PaymentStatus
  import opened Timestamps
  import Utils
  import Auth
  import AuthService
  import Mpesa
  import MpesaService

  type Body = map<string, Value>
  type Reply = Response<Body>

  const NotAuthenticated := "Not authenticated"
  const InvalidSession := "Invalid session"
  const Unauthorized := "Unauthorized"
  const ValidationFailed := "Validation failed"
  const InvalidPackage := "Invalid package ID"
  const PaymentInitiationFailed := "Payment initiation failed"
  const PaymentFallback := "Failed to initiate payment"
  const PaymentInitiated := "Payment initiated successfully"
  const ProcessingError := "An error occurred while processing payment"
  const StatusCheckError := "An error occurred while checking transaction status"

  /** `NextResponse.json({ success, message }, { status })`. */
  function Plain(status: nat, success: bool, message: string): (r: Reply)
    ensures r.status == status && Field(r.body, "success") == Bool(success)
    ensures Field(r.body, "message") == Str(message)
  {
    Response(status, map["success" := Bool(success), "message" := Str(message)])
  }

  /** A 4xx or 5xx reply of the guard chains. */
  predicate Refusal(r: Reply, status: nat, message: string) {
    r == Plain(status, false, message)
  }

  // ------------------------------------------------ POST /api/mpesa/payment

  datatype PaymentInput = PaymentInput(phone: string, amount: int, packageId: Value)

  /** The route's schema: a phone number `isValidPhoneNumber` accepts, a
      positive amount and an optional string package id. */
  function PaymentSchema(body: Value): (r: Option<PaymentInput>)
    ensures r.Some? ==> Utils.IsValidPhoneNumber(r.value.phone) && r.value.amount > 0
    ensures r.Some? ==> r.value.packageId.Undefined? || r.value.packageId.Str?
    ensures r.Some? <==>
      && body.Doc?
      && Field(body.fields, "phone").Str? && Utils.IsValidPhoneNumber(Field(body.fields, "phone").s)
      && Field(body.fields, "amount").Num? && Field(body.fields, "amount").n > 0
      && (Field(body.fields, "packageId").Undefined? || Field(body.fields, "packageId").Str?)
    ensures r.Some? ==>
      r.value == PaymentInput(Field(body.fields, "phone").s, Field(body.fields, "amount").n,
                              Field(body.fields, "packageId"))
  {
    if !body.Doc? then None
    else
      var phone := Field(body.fields, "phone");
      var amount := Field(body.fields, "amount");
      var packageId := Field(body.fields, "packageId");
      if phone.Str? && Utils.IsValidPhoneNumber(phone.s) && amount.Num? && amount.n > 0
         && (packageId.Undefined? || packageId.Str?)
      then Some(PaymentInput(phone.s, amount.n, packageId))
      else None
  }

  /** The package id handed to `initiateSTKPush`: the body's, when given. */
  function GivenPackage(packageId: Value): Option<string> {
    if packageId.Str? then Some(packageId.s) else None
  }

  /** The JSON of an `initiateSTKPush` result; an undefined field is left out. */
  function PushBody(r: Mpesa.StkPushResult): Body {
    Persist(map["success" := Bool(r.success), "transactionId" := Str(r.transactionId),
                "message" := r.message, "responseDescription" := r.responseDescription])
  }

  /** The engine call of the payment route: phone, amount, user id and
      package id to the result or the thrown message. */
  type Initiator = (string, int, string, Option<string>) -> Result<Mpesa.StkPushResult, string>

  function PaymentRoute(sessionId: Option<string>, currentUser: string -> Option<Auth.PublicUser>,
                        body: Result<Value, string>, packageExists: string -> bool,
                        initiate: Initiator): (r: Reply)
    ensures r.status in {StatusOk, 400, 401, 500}
    ensures r.status == 401 <==> sessionId.None? || sessionId.value == "" || currentUser(sessionId.value).None?
    ensures r.status == 400 ==> body.Ok?
    ensures r.status == StatusOk ==> body.Ok? && PaymentSchema(body.value).Some?
    ensures r.status != StatusOk ==> Field(r.body, "success") == Bool(false)
  {
    if sessionId.None? || sessionId.value == "" then Plain(401, false, NotAuthenticated)
    else match currentUser(sessionId.value)
      case None => Plain(401, false, InvalidSession)
      case Some(user) =>
        match body
        case Err(_) => Plain(500, false, PaymentInitiationFailed)
        case Ok(b) =>
          match PaymentSchema(b)
          case None => Plain(400, false, ValidationFailed)
          case Some(input) =>
            var packageId := GivenPackage(input.packageId);
            if packageId.Some? && packageId.value != "" && !packageExists(packageId.value) then
              Plain(400, false, InvalidPackage)
            else match initiate(input.phone, input.amount, user.id, packageId)
              case Err(_) => Plain(500, false, PaymentInitiationFailed)
              case Ok(r) => Response(StatusOk, PushBody(r))
  }

  /** The caller is checked before the body is read: without a session, or
      with one that names nobody, the reply is the same 401 whatever was
      sent and whatever the other collaborators would say. */
  lemma PaymentAuthenticatesFirst(sessionId: Option<string>, currentUser: string -> Option<Auth.PublicUser>,
                                  body1: Result<Value, string>, body2: Result<Value, string>,
                                  packageExists1: string -> bool, packageExists2: string -> bool,
                                  initiate1: Initiator, initiate2: Initiator)
    requires sessionId.None? || sessionId.value == "" || currentUser(sessionId.value).None?
    ensures PaymentRoute(sessionId, currentUser, body1, packageExists1, initiate1)
         == PaymentRoute(sessionId, currentUser, body2, packageExists2, initiate2)
    ensures var r := PaymentRoute(sessionId, currentUser, body1, packageExists1, initiate1);
      r.status == 401
      && (sessionId.None? || sessionId.value == "" ==> Refusal(r, 401, NotAuthenticated))
      && (sessionId.Some? && sessionId.value != "" ==> Refusal(r, 401, InvalidSession))
  {
  }

  /** A body the schema refuses gets 400 "Validation failed". */
  lemma PaymentValidates(sessionId: string, currentUser: string -> Option<Auth.PublicUser>,
                         body: Value, packageExists: string -> bool, initiate: Initiator)
    requires sessionId != "" && currentUser(sessionId).Some? && PaymentSchema(body).None?
    ensures Refusal(PaymentRoute(Some(sessionId), currentUser, Ok(body), packageExists, initiate), 400, ValidationFailed)
  {
  }

  /** Without a package id the package table is not consulted. */
  lemma PaymentWithoutPackageSkipsLookup(sessionId: string, currentUser: string -> Option<Auth.PublicUser>,
                                         body: Value, packageExists1: string -> bool,
                                         packageExists2: string -> bool, initiate: Initiator)
    requires PaymentSchema(body).Some?
    requires !Truthy(PaymentSchema(body).value.packageId)
    ensures PaymentRoute(Some(sessionId), currentUser, Ok(body), packageExists1, initiate)
         == PaymentRoute(Some(sessionId), currentUser, Ok(body), packageExists2, initiate)
  {
  }

  /** An unknown package id gets 400 and the engine is not called. */
  lemma PaymentUnknownPackage(sessionId: string, currentUser: string -> Option<Auth.PublicUser>,
                              body: Value, packageExists: string -> bool, initiate1: Initiator, initiate2: Initiator)
    requires sessionId != "" && currentUser(sessionId).Some? && PaymentSchema(body).Some?
    requires var p := PaymentSchema(body).value.packageId;
      p.Str? && p.s != "" && !packageExists(p.s)
    ensures PaymentRoute(Some(sessionId), currentUser, Ok(body), packageExists, initiate1)
         == PaymentRoute(Some(sessionId), currentUser, Ok(body), packageExists, initiate2)
    ensures Refusal(PaymentRoute(Some(sessionId), currentUser, Ok(body), packageExists, initiate1), 400, InvalidPackage)
  {
  }

  /** Once every guard passes, the engine's result is the body of a 200
      reply even when it reports failure; a thrown error is a 500. */
  lemma PaymentPassesResultThrough(sessionId: string, currentUser: string -> Option<Auth.PublicUser>,
                                   body: Value, packageExists: string -> bool, initiate: Initiator)
    requires sessionId != "" && currentUser(sessionId).Some? && PaymentSchema(body).Some?
    requires var p := PaymentSchema(body).value.packageId;
      !(p.Str? && p.s != "" && !packageExists(p.s))
    ensures var input := PaymentSchema(body).value;
      var outcome := initiate(input.phone, input.amount, currentUser(sessionId).value.id, GivenPackage(input.packageId));
      var r := PaymentRoute(Some(sessionId), currentUser, Ok(body), packageExists, initiate);
      && (outcome.Ok? ==> r.status == StatusOk && Field(r.body, "success") == Bool(outcome.value.success)
                          && Field(r.body, "transactionId") == Str(outcome.value.transactionId))
      && (outcome.Err? ==> Refusal(r, 500, PaymentInitiationFailed))
  {
  }

  // ---------------------------------------------- POST /api/mpesa/stk-push

  datatype StkInput = StkInput(phoneNumber: string, amount: int, packageId: int)

  /** The route's schema: any string phone number, a positive amount and a
      positive numeric package id, which is therefore mandatory. */
  function StkSchema(body: Value): (r: Option<StkInput>)
    ensures r.Some? ==> r.value.amount > 0 && r.value.packageId > 0
    ensures r.Some? <==>
      && body.Doc? && Field(body.fields, "phoneNumber").Str?
      && Field(body.fields, "amount").Num? && Field(body.fields, "amount").n > 0
      && Field(body.fields, "packageId").Num? && Field(body.fields, "packageId").n > 0
    ensures r.Some? ==>
      r.value == StkInput(Field(body.fields, "phoneNumber").s, Field(body.fields, "amount").n,
                          Field(body.fields, "packageId").n)
  {
    if !body.Doc? then None
    else
      var phone := Field(body.fields, "phoneNumber");
      var amount := Field(body.fields, "amount");
      var packageId := Field(body.fields, "packageId");
      if phone.Str? && amount.Num? && amount.n > 0 && packageId.Num? && packageId.n > 0
      then Some(StkInput(phone.s, amount.n, packageId.n))
      else None
  }

  /** `getCurrentUser()` of the numerically keyed accounts: nobody, a user,
      or a thrown database error. */
  type CurrentUserOutcome = Result<Option<AuthService.AuthUser>, string>

  function StkPushRoute(current: CurrentUserOutcome, body: Result<Value, string>, packageExists: int -> bool,
                        pay: MpesaService.PaymentRequest -> MpesaService.ServiceResponse): (r: Reply)
    ensures r.status in {StatusOk, 400, 401, 500}
    ensures r.status == 401 <==> current == Ok(None)
    ensures r.status == StatusOk ==>
      body.Ok? && StkSchema(body.value).Some? && packageExists(StkSchema(body.value).value.packageId)
    ensures Field(r.body, "success") == Bool(r.status == StatusOk)
  {
    match current
    case Err(_) => Plain(500, false, ProcessingError)
    case Ok(None) => Plain(401, false, Unauthorized)
    case Ok(Some(user)) =>
      match body
      case Err(_) => Plain(500, false, ProcessingError)
      case Ok(b) =>
        match StkSchema(b)
        case None => Plain(400, false, ValidationFailed)
        case Some(input) =>
          if !packageExists(input.packageId) then Plain(400, false, InvalidPackage)
          else
            var p := pay(MpesaService.PaymentRequest(input.phoneNumber, input.amount, user.id, input.packageId));
            if !p.success then
              Response(500, map["success" := Bool(false),
                                "message" := MpesaService.OrElse(p.message, Str(PaymentFallback))])
            else
              Response(StatusOk, Persist(map[
                "success" := Bool(true),
                "message" := Str(PaymentInitiated),
                "transactionId" := (if p.transactionId.Some? then Str(p.transactionId.value) else Undefined),
                "responseDescription" := p.responseDescription]))
  }

  /** Without a current user the reply is 401 whatever was sent. */
  lemma StkPushAuthenticatesFirst(body1: Result<Value, string>, body2: Result<Value, string>,
                                  packageExists: int -> bool,
                                  pay: MpesaService.PaymentRequest -> MpesaService.ServiceResponse)
    ensures StkPushRoute(Ok(None), body1, packageExists, pay) == StkPushRoute(Ok(None), body2, packageExists, pay)
    ensures Refusal(StkPushRoute(Ok(None), body1, packageExists, pay), 401, Unauthorized)
  {
  }

  /** The package is mandatory here: a body without a numeric package id
      fails validation. */
  lemma StkPushNeedsPackage(user: AuthService.AuthUser, body: Value, packageExists: int -> bool,
                            pay: MpesaService.PaymentRequest -> MpesaService.ServiceResponse)
    requires body.Doc? && !Field(body.fields, "packageId").Num?
    ensures Refusal(StkPushRoute(Ok(Some(user)), Ok(body), packageExists, pay), 400, ValidationFailed)
  {
  }

  /** A payment the engine reports as failed is a 500 carrying the
      engine's message, or the fallback text when that message is empty;
      a successful one is a 200 carrying the transaction code. */
  lemma StkPushMapsOutcome(user: AuthService.AuthUser, body: Value, packageExists: int -> bool,
                           pay: MpesaService.PaymentRequest -> MpesaService.ServiceResponse)
    requires StkSchema(body).Some? && packageExists(StkSchema(body).value.packageId)
    ensures var input := StkSchema(body).value;
      var p := pay(MpesaService.PaymentRequest(input.phoneNumber, input.amount, user.id, input.packageId));
      var r := StkPushRoute(Ok(Some(user)), Ok(body), packageExists, pay);
      && (!p.success ==> r.status == 500 && Field(r.body, "success") == Bool(false)
                         && Field(r.body, "message") == (if Truthy(p.message) then p.message else Str(PaymentFallback)))
      && (p.success ==> r.status == StatusOk && Field(r.body, "message") == Str(PaymentInitiated)
                        && (p.transactionId.Some? ==> Field(r.body, "transactionId") == Str(p.transactionId.value)))
  {
  }

  // ------------------------------------------------ POST /api/mpesa/status

  /** The JSON of a string-keyed status reply. */
  function StatusBody(r: Mpesa.StatusReply): Body {
    match r.details
    case None => map["success" := Bool(r.success), "message" := Str(r.message)]
    case Some(d) =>
      map["success" := Bool(r.success), "message" := Str(r.message),
          "transactionId" := Str(d.transactionId), "status" := Str(StatusName(d.status)),
          "metadata" := Doc(d.metadata)]
  }

  /** The id the schema accepts: a non-empty string. */
  function RequestedId(body: Value): Option<string> {
    if body.Doc? && Field(body.fields, "transactionId").Str? && Field(body.fields, "transactionId").s != ""
    then Some(Field(body.fields, "transactionId").s)
    else None
  }

  /** `schema.parse` throws, so a missing or empty id falls into the
      catch-all 500 like a failed lookup. */
  function StatusRoute(sessionId: Option<string>, currentUser: string -> Option<Auth.PublicUser>,
                       body: Result<Value, string>, lookup: string -> Result<Mpesa.StatusReply, string>): (r: Reply)
    ensures r.status in {StatusOk, 401, 500}
    ensures r.status == 401 <==> sessionId.None? || sessionId.value == "" || currentUser(sessionId.value).None?
    ensures r.status == StatusOk <==>
      && sessionId.Some? && sessionId.value != "" && currentUser(sessionId.value).Some?
      && body.Ok? && RequestedId(body.value).Some? && lookup(RequestedId(body.value).value).Ok?
  {
    if sessionId.None? || sessionId.value == "" then Plain(401, false, NotAuthenticated)
    else if currentUser(sessionId.value).None? then Plain(401, false, InvalidSession)
    else match body
      case Err(_) => Plain(500, false, StatusCheckError)
      case Ok(b) =>
        match RequestedId(b)
        case None => Plain(500, false, StatusCheckError)
        case Some(id) =>
          match lookup(id)
          case Err(_) => Plain(500, false, StatusCheckError)
          case Ok(r) => Response(StatusOk, StatusBody(r))
  }

  /** A missing or empty transaction id is a server error here, not a 400. */
  lemma StatusEmptyIdIsServerError(sessionId: string, currentUser: string -> Option<Auth.PublicUser>,
                                   fields: Body, lookup: string -> Result<Mpesa.StatusReply, string>)
    requires sessionId != "" && currentUser(sessionId).Some?
    requires Field(fields, "transactionId") in {Undefined, Str("")}
    ensures Refusal(StatusRoute(Some(sessionId), currentUser, Ok(Doc(fields)), lookup), 500, StatusCheckError)
  {
  }

  /** Against the real table the reply is the engine's verdict with status
      200, "Transaction not found" included. */
  lemma StatusReportsLookup(sessionId: string, currentUser: string -> Option<Auth.PublicUser>,
                            body: Value, rows: seq<Mpesa.Transaction>)
    requires sessionId != "" && currentUser(sessionId).Some? && RequestedId(body).Some?
    ensures var r := StatusRoute(Some(sessionId), currentUser, Ok(body),
                                 (id: string) => Ok(Mpesa.CheckTransactionStatus(rows, id)));
      var v := Mpesa.CheckTransactionStatus(rows, RequestedId(body).value);
      && r.status == StatusOk
      && Field(r.body, "success") == Bool(v.success)
      && Field(r.body, "message") == Str(v.message)
      && (v.details.None? ==> Field(r.body, "message") == Str(NotFoundMessage))
  {
  }

  // ------------------------------------------ POST /api/mpesa/query-status

  /** Only `success`, `message` and `transactionId` of the engine's reply
      are passed on. */
  function QueryBody(r: MpesaService.StatusReply): Body {
    Persist(map["success" := Bool(r.success), "message" := Str(r.message),
                "transactionId" := (if r.transactionId.Some? then Str(r.transactionId.value) else Undefined)])
  }

  function QueryStatusRoute(current: CurrentUserOutcome, body: Result<Value, string>,
                            check: string -> MpesaService.StatusReply): (r: Reply)
    ensures r.status in {StatusOk, 400, 401, 500}
    ensures r.status == 401 <==> current == Ok(None)
    ensures r.status == StatusOk <==>
      current.Ok? && current.value.Some? && body.Ok? && RequestedId(body.value).Some?
  {
    match current
    case Err(_) => Plain(500, false, StatusCheckError)
    case Ok(None) => Plain(401, false, Unauthorized)
    case Ok(Some(_)) =>
      match body
      case Err(_) => Plain(500, false, StatusCheckError)
      case Ok(b) =>
        match RequestedId(b)
        case None => Plain(400, false, ValidationFailed)
        case Some(id) => Response(StatusOk, QueryBody(check(id)))
  }

  /** Here a missing or empty id is a client error. */
  lemma QueryEmptyIdIsClientError(user: AuthService.AuthUser, fields: Body,
                                  check: string -> MpesaService.StatusReply)
    requires Field(fields, "transactionId") in {Undefined, Str("")}
    ensures Refusal(QueryStatusRoute(Ok(Some(user)), Ok(Doc(fields)), check), 400, ValidationFailed)
  {
  }

  /** The reply holds exactly the three projected fields (the id only when
      the transaction exists) and reports the engine's verdict. */
  lemma QueryProjectsThreeFields(user: AuthService.AuthUser, body: Value,
                                 rows: seq<MpesaService.Transaction>)
    requires RequestedId(body).Some?
    ensures var r := QueryStatusRoute(Ok(Some(user)), Ok(body),
                                      (id: string) => MpesaService.CheckTransactionStatus(rows, id));
      var v := MpesaService.CheckTransactionStatus(rows, RequestedId(body).value);
      && r.status == StatusOk
      && r.body.Keys <= {"success", "message", "transactionId"}
      && ("transactionId" in r.body <==> v.transactionId.Some?)
      && Field(r.body, "success") == Bool(v.success)
      && Field(r.body, "message") == Str(v.message)
  {
  }

  // ---------------------------------------------- POST /api/mpesa/callback

  /** `{ success: true }` with the default status. */
  const Acknowledgement: Reply := Response(StatusOk, map["success" := Bool(true)])

  /** Applies a gateway callback and acknowledges it.  A body that is not
      JSON is acknowledged too, without touching the table. */
  method CallbackRoute(db: Mpesa.TransactionTable, body: Result<Mpesa.CallbackData, string>, now: IsoInstant)
    returns (reply: Reply)
    modifies db
    ensures reply == Acknowledgement
    ensures body.Ok? ==> db.rows == Mpesa.CallbackEffect(old(db.rows), body.value, now)
    ensures body.Err? ==> db.rows == old(db.rows)
  {
    if body.Err? {
      return Acknowledgement;
    }
    Mpesa.HandleCallback(db, body.value, now);
    return Acknowledgement;
  }
}
