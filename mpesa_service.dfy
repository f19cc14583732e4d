/** The numeric-keyed payment engine used by the stk-push and query-status
    routes.  Unlike the string-keyed engine it records the pending row
    before any gateway call, reports every failure as `success: false`
    instead of throwing, and replaces the metadata when it marks a row
    failed.

    The two `fetch` calls are inputs (`FetchOutcome`); the clock is an
    `IsoInstant`, `Math.random()` a `Draw` and `uuidv4()` the `requestId`
    parameter.  Row ids are assigned by the table, one above the last. */
module MpesaService {
  import opened Common
  import opened Timestamps
  import opened PaymentStatus
  import Utils

  const InvalidPhoneMessage := "Invalid phone number format. Must be a valid Kenyan number"
  const AuthFailedMessage := "Failed to authenticate with M-Pesa"
  const StkFallbackMessage := "Failed to initiate payment"
  const StkSentMessage := "STK push sent successfully"
  const MpesaMethod := "mpesa"

  datatype Transaction = Transaction(
    id: nat,
    userId: int,
    packageId: int,
    transactionCode: string,
    amount: int,
    phone: string,
    status: Status,
    paymentMethod: string,
    metadata: map<string, Value>)

  /** Ids are below the next id to assign and distinct; transaction codes
      are unique. */
  ghost predicate WellKeyed(rows: seq<Transaction>, nextId: nat) {
    && (forall i :: 0 <= i < |rows| ==> rows[i].id < nextId)
    && (forall i, j :: 0 <= i < j < |rows| ==>
          rows[i].id != rows[j].id && rows[i].transactionCode != rows[j].transactionCode)
  }

  predicate CodeTaken(rows: seq<Transaction>, code: string) {
    exists i :: 0 <= i < |rows| && rows[i].transactionCode == code
  }

  function HasId(id: nat): Transaction -> bool {
    (t: Transaction) => t.id == id
  }

  function HasCode(code: string): Transaction -> bool {
    (t: Transaction) => t.transactionCode == code
  }

  /** `updateTransactionStatus(id, status, metadata)`: sets the status of
      the row with that id, and replaces its metadata when metadata is
      given. */
  function SetStatus(rows: seq<Transaction>, id: nat, status: Status, metadata: Option<map<string, Value>>)
    : (r: seq<Transaction>)
    ensures |r| == |rows|
    ensures forall j :: 0 <= j < |rows| && FindFirst(rows, HasId(id)) != Some(j) ==> r[j] == rows[j]
    ensures forall j :: 0 <= j < |rows| && FindFirst(rows, HasId(id)) == Some(j) ==>
      r[j] == rows[j].(status := status,
                       metadata := if metadata.Some? then Persist(metadata.value) else rows[j].metadata)
  {
    match FindFirst(rows, HasId(id))
    case None => rows
    case Some(k) =>
      rows[k := rows[k].(status := status,
                         metadata := if metadata.Some? then Persist(metadata.value) else rows[k].metadata)]
  }

  /** The metadata update of the row with that id: `{...metadata, ...updates}`. */
  function MergeMetadata(rows: seq<Transaction>, id: nat, updates: map<string, Value>): (r: seq<Transaction>)
    ensures |r| == |rows|
    ensures forall j :: 0 <= j < |rows| && FindFirst(rows, HasId(id)) != Some(j) ==> r[j] == rows[j]
    ensures forall j :: 0 <= j < |rows| && FindFirst(rows, HasId(id)) == Some(j) ==>
      r[j] == rows[j].(metadata := Spread(rows[j].metadata, updates))
  {
    match FindFirst(rows, HasId(id))
    case None => rows
    case Some(k) => rows[k := rows[k].(metadata := Spread(rows[k].metadata, updates))]
  }

  /** With distinct ids, a status update changes the row with that id and
      no other. */
  lemma SetStatusChangesOneRow(rows: seq<Transaction>, nextId: nat, k: nat, status: Status,
                               metadata: Option<map<string, Value>>)
    requires WellKeyed(rows, nextId) && k < |rows|
    ensures var r := SetStatus(rows, rows[k].id, status, metadata);
      && r[k].status == status
      && r[k].metadata == (if metadata.Some? then Persist(metadata.value) else rows[k].metadata)
      && r[k].transactionCode == rows[k].transactionCode && r[k].id == rows[k].id
      && (forall j :: 0 <= j < |rows| && j != k ==> r[j] == rows[j])
      && WellKeyed(r, nextId)
  {
    assert FindFirst(rows, HasId(rows[k].id)) == Some(k) by {
      var f := FindFirst(rows, HasId(rows[k].id));
      assert HasId(rows[k].id)(rows[k]);
    }
  }

  /** The table. */
  class TransactionTable {
    var rows: seq<Transaction>
    var nextId: nat

    ghost predicate Valid()
      reads this
    {
      WellKeyed(rows, nextId)
    }

    constructor()
      ensures Valid() && rows == [] && nextId == 1
    {
      rows, nextId := [], 1;
    }

    /** `prisma.transaction.create`: assigns the next id, or fails on a
        taken transaction code and leaves the table alone. */
    method Create(t: Transaction) returns (id: Option<nat>)
      requires Valid()
      modifies this
      ensures Valid()
      ensures CodeTaken(old(rows), t.transactionCode) ==>
        id == None && rows == old(rows) && nextId == old(nextId)
      ensures !CodeTaken(old(rows), t.transactionCode) ==>
        id == Some(old(nextId)) && rows == old(rows) + [t.(id := old(nextId))] && nextId == old(nextId) + 1
    {
      if CodeTaken(rows, t.transactionCode) {
        return None;
      }
      id := Some(nextId);
      rows := rows + [t.(id := nextId)];
      nextId := nextId + 1;
    }

    method UpdateTransactionStatus(id: nat, status: Status, metadata: Option<map<string, Value>>)
      requires Valid()
      modifies this
      ensures Valid()
      ensures rows == SetStatus(old(rows), id, status, metadata) && nextId == old(nextId)
    {
      rows := SetStatus(rows, id, status, metadata);
      match FindFirst(old(rows), HasId(id))
      case None =>
      case Some(k) => SetStatusChangesOneRow(old(rows), nextId, k, status, metadata);
    }

    method MergeMetadataOf(id: nat, updates: map<string, Value>)
      requires Valid()
      modifies this
      ensures Valid()
      ensures rows == MergeMetadata(old(rows), id, updates) && nextId == old(nextId)
    {
      rows := MergeMetadata(rows, id, updates);
      assert forall j :: 0 <= j < |rows| ==>
        rows[j].id == old(rows)[j].id && rows[j].transactionCode == old(rows)[j].transactionCode;
    }
  }

  /** `/^254(7[0-9]|1[0-9])[0-9]{7}$/`. */
  function ValidatePhoneNumber(phone: string): (b: bool)
    ensures b ==> |phone| == 12 && AllDigits(phone)
  {
    && |phone| == 12 && phone[..3] == "254"
    && (phone[3] == '7' || phone[3] == '1') && IsDigit(phone[4])
    && AllDigits(phone[5..])
  }

  /** The service's pattern accepts exactly the numbers the shared
      international pattern accepts. */
  lemma ValidateIsInternationalForm(phone: string)
    ensures ValidatePhoneNumber(phone) <==> Utils.InternationalForm(phone)
  {
    if |phone| == 12 {
      assert phone[4..] == [phone[4]] + phone[5..];
    }
  }

  /** Every number the shared validator accepts passes the service's check
      once formatted. */
  lemma ValidNumbersPassService(phone: string)
    requires Utils.IsValidPhoneNumber(phone)
    ensures ValidatePhoneNumber(Utils.FormatPhoneNumber(phone))
  {
    Utils.FormatKeepsValidity(phone);
    ValidateIsInternationalForm(Utils.FormatPhoneNumber(phone));
  }

  /** The service also accepts nine-digit subscriber numbers, which the
      shared validator rejects. */
  lemma ServiceAcceptsBareSubscriberNumber()
    ensures !Utils.IsValidPhoneNumber("712345678")
    ensures ValidatePhoneNumber(Utils.FormatPhoneNumber("712345678"))
  {
    var p := "712345678";
    assert !StartsWith(p, "0") && !StartsWith(p, "254") by { assert p[..1][0] == '7'; }
    assert Utils.FormatPhoneNumber(p) == "254712345678";
    assert "254712345678"[..3] == "254";
    assert "254712345678"[5..] == "2345678";
  }

  /** What one `fetch` call gives: a network failure (a thrown `TypeError`
      with its message), or a response with its `ok` flag and its body read
      by `.json()`, which throws on a body that is not JSON. */
  datatype FetchOutcome =
    | NetworkFailure(message: string)
    | Answered(ok: bool, body: Result<map<string, Value>, string>)

  /** The `MpesaResponse` object returned to the route.  Absent optional
      fields are `Undefined`. */
  datatype ServiceResponse = ServiceResponse(
    success: bool,
    message: Value,
    transactionId: Option<string>,
    responseCode: Value,
    responseDescription: Value,
    errorCode: Value,
    errorMessage: Value)

  /** `{ success: false, message }`: what an invalid phone or a caught error
      gives. */
  function Failure(message: string): ServiceResponse {
    ServiceResponse(false, Str(message), None, Undefined, Undefined, Undefined, Undefined)
  }

  /** `a || b` on JSON values. */
  function OrElse(a: Value, b: Value): Value {
    if Truthy(a) then a else b
  }

  /** A payment request as the route passes it on. */
  datatype PaymentRequest = PaymentRequest(phone: string, amount: int, userId: int, packageId: int)

  const AuthStage := "auth"
  const StkStage := "stk_push"

  /** The pending row, before the table assigns its id. */
  function PendingRow(req: PaymentRequest, code: string, phone: string, now: IsoInstant, requestId: string)
    : (t: Transaction)
    ensures t.status == Pending && t.paymentMethod == MpesaMethod && t.transactionCode == code && t.phone == phone
    ensures t.userId == req.userId && t.packageId == req.packageId && t.amount == req.amount
    ensures t.metadata == map["initiatedAt" := Str(now), "requestId" := Str(requestId)]
  {
    Transaction(0, req.userId, req.packageId, code, req.amount, phone, Pending, MpesaMethod,
                map["initiatedAt" := Str(now), "requestId" := Str(requestId)])
  }

  /** The metadata that replaces a row's metadata when a stage fails. */
  function StageError(stage: string, details: map<string, Value>): (m: map<string, Value>)
    ensures IsPersisted(m) && m.Keys == {"errorStage", "errorDetails"}
  {
    map["errorStage" := Str(stage), "errorDetails" := Doc(details)]
  }

  /** The outcome of a payment initiation: the response and the table after
      it. */
  datatype Payment = Payment(response: ServiceResponse, rows: seq<Transaction>, nextId: nat)

  /** `initiateMpesaPayment` as a function of the table, the request, the
      clock, the random draw, the request id and the two fetch outcomes. */
  function Initiate(rows: seq<Transaction>, nextId: nat, req: PaymentRequest, now: IsoInstant, draw: Draw,
                    requestId: string, token: FetchOutcome, stk: FetchOutcome): (p: Payment)
    ensures var recorded := ValidatePhoneNumber(Utils.FormatPhoneNumber(req.phone))
                            && !CodeTaken(rows, ReferenceCode(CompactTimestamp(now), draw));
      && |p.rows| == (if recorded then |rows| + 1 else |rows|)
      && (!recorded ==> p.rows == rows && p.nextId == nextId && !p.response.success)
    ensures p.response.success ==>
      p.response.transactionId == Some(ReferenceCode(CompactTimestamp(now), draw))
      && p.response.message == Str(StkSentMessage)
  {
    var formatted := Utils.FormatPhoneNumber(req.phone);
    if !ValidatePhoneNumber(formatted) then Payment(Failure(InvalidPhoneMessage), rows, nextId)
    else
      var code := ReferenceCode(CompactTimestamp(now), draw);
      if CodeTaken(rows, code) then Payment(Failure(UniqueViolation), rows, nextId)
      else
        var row := PendingRow(req, code, formatted, now, requestId).(id := nextId);
        Gateway(rows + [row], nextId, code, token, stk)
  }

  /** What follows the insert of row `id` with code `code`: the token
      request, then the push request. */
  function Gateway(created: seq<Transaction>, id: nat, code: string, token: FetchOutcome, stk: FetchOutcome)
    : (p: Payment)
    ensures |p.rows| == |created| && p.nextId == id + 1
    ensures p.response.success <==>
      token.Answered? && token.ok && token.body.Ok? && stk.Answered? && stk.body.Ok?
      && Field(stk.body.value, "ResponseCode") == Str("0")
    ensures p.response.success ==>
      p.response.transactionId == Some(code) && p.response.message == Str(StkSentMessage)
  {
    match token
    case NetworkFailure(msg) => Payment(Failure(msg), created, id + 1)
    case Answered(ok, body) =>
      if body.Err? then Payment(Failure(body.error), created, id + 1)
      else if !ok then
        var tokenData := body.value;
        Payment(ServiceResponse(false, Str(AuthFailedMessage), None, Undefined, Undefined,
                                Field(tokenData, "errorCode"), Field(tokenData, "errorMessage")),
                SetStatus(created, id, Failed, Some(StageError(AuthStage, tokenData))),
                id + 1)
      else
        match stk
        case NetworkFailure(msg) => Payment(Failure(msg), created, id + 1)
        case Answered(_, stkBody) =>
          if stkBody.Err? then Payment(Failure(stkBody.error), created, id + 1)
          else
            var data := stkBody.value;
            var merged := MergeMetadata(created, id, map["stkResponse" := Doc(data)]);
            if Field(data, "ResponseCode") != Str("0") then
              Payment(ServiceResponse(false, OrElse(Field(data, "ResponseDescription"), Str(StkFallbackMessage)),
                                      Some(code), Field(data, "ResponseCode"),
                                      Field(data, "ResponseDescription"), Undefined, Undefined),
                      SetStatus(merged, id, Failed, Some(StageError(StkStage, data))),
                      id + 1)
            else
              Payment(ServiceResponse(true, Str(StkSentMessage), Some(code), Undefined,
                                      Field(data, "ResponseDescription"), Undefined, Undefined),
                      merged, id + 1)
  }

  /** Formats and checks the phone, records the pending row, then asks for a
      token and pushes the request; every failure is reported in the
      response, never thrown. */
  method InitiateMpesaPayment(db: TransactionTable, req: PaymentRequest, now: IsoInstant, draw: Draw,
                              requestId: string, token: FetchOutcome, stk: FetchOutcome)
    returns (response: ServiceResponse)
    requires db.Valid()
    modifies db
    ensures db.Valid()
    ensures var p := Initiate(old(db.rows), old(db.nextId), req, now, draw, requestId, token, stk);
            response == p.response && db.rows == p.rows && db.nextId == p.nextId
  {
    var formatted := Utils.FormatPhoneNumber(req.phone);
    if !ValidatePhoneNumber(formatted) {
      return Failure(InvalidPhoneMessage);
    }
    var code := ReferenceCode(CompactTimestamp(now), draw);
    var created := db.Create(PendingRow(req, code, formatted, now, requestId));
    if created.None? {
      return Failure(UniqueViolation);
    }
    var id := created.value;
    if token.NetworkFailure? {
      return Failure(token.message);
    }
    if token.body.Err? {
      return Failure(token.body.error);
    }
    if !token.ok {
      var tokenData := token.body.value;
      db.UpdateTransactionStatus(id, Failed, Some(StageError(AuthStage, tokenData)));
      return ServiceResponse(false, Str(AuthFailedMessage), None, Undefined, Undefined,
                             Field(tokenData, "errorCode"), Field(tokenData, "errorMessage"));
    }
    if stk.NetworkFailure? {
      return Failure(stk.message);
    }
    if stk.body.Err? {
      return Failure(stk.body.error);
    }
    var data := stk.body.value;
    db.MergeMetadataOf(id, map["stkResponse" := Doc(data)]);
    if Field(data, "ResponseCode") != Str("0") {
      db.UpdateTransactionStatus(id, Failed, Some(StageError(StkStage, data)));
      return ServiceResponse(false, OrElse(Field(data, "ResponseDescription"), Str(StkFallbackMessage)),
                             Some(code), Field(data, "ResponseCode"), Field(data, "ResponseDescription"),
                             Undefined, Undefined);
    }
    response := ServiceResponse(true, Str(StkSentMessage), Some(code), Undefined,
                                Field(data, "ResponseDescription"), Undefined, Undefined);
  }

  /** The state the new row ends in, read off the two fetch outcomes: failed
      with the stage's error when the token response is not ok or the push
      is not accepted, pending otherwise; only its status and metadata
      change. */
  function FinalRow(t: Transaction, token: FetchOutcome, stk: FetchOutcome): (r: Transaction)
    ensures r == t.(status := r.status, metadata := r.metadata)
    ensures t.status == Pending ==> (r.status == Pending || r.status == Failed)
    ensures t.status == Pending ==> (r.status == Failed <==>
      || (token.Answered? && token.body.Ok? && !token.ok)
      || (token.Answered? && token.body.Ok? && token.ok && stk.Answered? && stk.body.Ok?
          && Field(stk.body.value, "ResponseCode") != Str("0")))
  {
    if token.NetworkFailure? || token.body.Err? then t
    else if !token.ok then t.(status := Failed, metadata := StageError(AuthStage, token.body.value))
    else if stk.NetworkFailure? || stk.body.Err? then t
    else
      var data := stk.body.value;
      if Field(data, "ResponseCode") != Str("0") then t.(status := Failed, metadata := StageError(StkStage, data))
      else t.(metadata := Spread(t.metadata, map["stkResponse" := Doc(data)]))
  }

  /** The newly created row is the one its id finds. */
  lemma NewestRowFound(rows: seq<Transaction>, nextId: nat, t: Transaction)
    requires WellKeyed(rows, nextId) && t.id == nextId
    ensures FindFirst(rows + [t], HasId(nextId)) == Some(|rows|)
  {
    var all := rows + [t];
    assert HasId(nextId)(all[|rows|]);
    assert forall j :: 0 <= j < |rows| ==> !HasId(nextId)(all[j]);
  }

  /** Appending a row with the next id and a free code keeps the table well
      keyed. */
  lemma AppendKeepsWellKeyed(rows: seq<Transaction>, nextId: nat, t: Transaction)
    requires WellKeyed(rows, nextId) && t.id == nextId && !CodeTaken(rows, t.transactionCode)
    ensures WellKeyed(rows + [t], nextId + 1)
  {
    var all := rows + [t];
    forall i, j | 0 <= i < j < |all|
      ensures all[i].id != all[j].id && all[i].transactionCode != all[j].transactionCode
    {
      if j == |rows| {
        assert all[i] == rows[i];
      }
    }
  }

  /** Updates by the new row's id reach that row only. */
  lemma UpdatesOfNewest(rows: seq<Transaction>, nextId: nat, t: Transaction, updates: map<string, Value>,
                        status: Status, metadata: Option<map<string, Value>>)
    requires WellKeyed(rows, nextId) && t.id == nextId
    ensures MergeMetadata(rows + [t], nextId, updates) == rows + [t.(metadata := Spread(t.metadata, updates))]
    ensures SetStatus(rows + [t], nextId, status, metadata)
         == rows + [t.(status := status, metadata := if metadata.Some? then Persist(metadata.value) else t.metadata)]
  {
    NewestRowFound(rows, nextId, t);
  }

  lemma PersistKeeps(m: map<string, Value>)
    requires IsPersisted(m)
    ensures Persist(m) == m
  {
  }

  /** After the insert, the table's by-id updates touch the new row only and
      leave it in its `FinalRow` state; the table stays well keyed. */
  lemma GatewayUpdatesNewest(rows: seq<Transaction>, nextId: nat, t: Transaction,
                             token: FetchOutcome, stk: FetchOutcome)
    requires WellKeyed(rows, nextId) && t.id == nextId && !CodeTaken(rows, t.transactionCode)
    ensures var p := Gateway(rows + [t], nextId, t.transactionCode, token, stk);
            p.rows == rows + [FinalRow(t, token, stk)] && p.nextId == nextId + 1 && WellKeyed(p.rows, p.nextId)
  {
    AppendKeepsWellKeyed(rows, nextId, FinalRow(t, token, stk));
    if token.Answered? && token.body.Ok? {
      var authMd := StageError(AuthStage, token.body.value);
      PersistKeeps(authMd);
      UpdatesOfNewest(rows, nextId, t, map[], Failed, Some(authMd));
      if stk.Answered? && stk.body.Ok? {
        var data := stk.body.value;
        var merged := t.(metadata := Spread(t.metadata, map["stkResponse" := Doc(data)]));
        PersistKeeps(StageError(StkStage, data));
        UpdatesOfNewest(rows, nextId, t, map["stkResponse" := Doc(data)], Failed, None);
        UpdatesOfNewest(rows, nextId, merged, map[], Failed, Some(StageError(StkStage, data)));
      }
    }
  }

  /** An invalid phone is turned away before anything is recorded. */
  lemma InvalidPhoneRecordsNothing(rows: seq<Transaction>, nextId: nat, req: PaymentRequest, now: IsoInstant,
                                   draw: Draw, requestId: string, token: FetchOutcome, stk: FetchOutcome)
    requires !ValidatePhoneNumber(Utils.FormatPhoneNumber(req.phone))
    ensures var p := Initiate(rows, nextId, req, now, draw, requestId, token, stk);
            p.rows == rows && p.nextId == nextId && !p.response.success
            && p.response.message == Str(InvalidPhoneMessage)
  {
  }

  /** Once the phone is valid and the code free, exactly one pending row with
      that code, the formatted phone and the "mpesa" method is recorded,
      whatever the gateway does afterwards; it then ends in its `FinalRow`
      state and the table stays well keyed. */
  lemma RowRecordedBeforeGateway(rows: seq<Transaction>, nextId: nat, req: PaymentRequest, now: IsoInstant,
                                 draw: Draw, requestId: string, token: FetchOutcome, stk: FetchOutcome)
    requires WellKeyed(rows, nextId)
    requires ValidatePhoneNumber(Utils.FormatPhoneNumber(req.phone))
    requires !CodeTaken(rows, ReferenceCode(CompactTimestamp(now), draw))
    ensures var code := ReferenceCode(CompactTimestamp(now), draw);
            var row := PendingRow(req, code, Utils.FormatPhoneNumber(req.phone), now, requestId).(id := nextId);
            var p := Initiate(rows, nextId, req, now, draw, requestId, token, stk);
            p.rows == rows + [FinalRow(row, token, stk)] && p.nextId == nextId + 1 && WellKeyed(p.rows, p.nextId)
  {
    var code := ReferenceCode(CompactTimestamp(now), draw);
    var row := PendingRow(req, code, Utils.FormatPhoneNumber(req.phone), now, requestId).(id := nextId);
    GatewayUpdatesNewest(rows, nextId, row, token, stk);
  }

  /** A token response that is not ok marks the row failed and replaces its
      metadata by the "auth" stage and the token error, dropping what was
      there, and the caller gets the authentication failure. */
  lemma AuthFailureReplacesMetadata(rows: seq<Transaction>, nextId: nat, t: Transaction,
                                    tokenData: map<string, Value>, stk: FetchOutcome)
    requires WellKeyed(rows, nextId) && t.id == nextId && !CodeTaken(rows, t.transactionCode)
    ensures var p := Gateway(rows + [t], nextId, t.transactionCode, Answered(false, Ok(tokenData)), stk);
      && !p.response.success && p.response.message == Str(AuthFailedMessage)
      && p.response.errorCode == Field(tokenData, "errorCode")
      && p.rows[|rows|].status == Failed
      && p.rows[|rows|].metadata == map["errorStage" := Str("auth"), "errorDetails" := Doc(tokenData)]
      && "initiatedAt" !in p.rows[|rows|].metadata
  {
    GatewayUpdatesNewest(rows, nextId, t, Answered(false, Ok(tokenData)), stk);
  }

  /** An accepted push leaves the row pending, keeps its metadata, adds the
      gateway's reply as `stkResponse`, and hands the transaction code
      back. */
  lemma AcceptedPushStaysPending(rows: seq<Transaction>, nextId: nat, t: Transaction,
                                 tokenData: map<string, Value>, stkOk: bool, data: map<string, Value>)
    requires WellKeyed(rows, nextId) && t.id == nextId && !CodeTaken(rows, t.transactionCode)
    requires IsPersisted(t.metadata) && t.status == Pending
    requires Field(data, "ResponseCode") == Str("0")
    ensures var p := Gateway(rows + [t], nextId, t.transactionCode, Answered(true, Ok(tokenData)),
                             Answered(stkOk, Ok(data)));
            var r := p.rows[|rows|];
      && p.response.success && p.response.transactionId == Some(t.transactionCode)
      && r.status == Pending
      && r.metadata == t.metadata["stkResponse" := Doc(data)]
  {
    GatewayUpdatesNewest(rows, nextId, t, Answered(true, Ok(tokenData)), Answered(stkOk, Ok(data)));
    var merged := Spread(t.metadata, map["stkResponse" := Doc(data)]);
    assert merged == t.metadata["stkResponse" := Doc(data)];
  }

  /** A push the gateway does not accept marks the row failed at the
      "stk_push" stage and reports the description, or the fallback text
      when the description is empty or missing. */
  lemma RejectedPushFails(rows: seq<Transaction>, nextId: nat, t: Transaction,
                          tokenData: map<string, Value>, stkOk: bool, data: map<string, Value>)
    requires WellKeyed(rows, nextId) && t.id == nextId && !CodeTaken(rows, t.transactionCode)
    requires Field(data, "ResponseCode") != Str("0")
    ensures var p := Gateway(rows + [t], nextId, t.transactionCode, Answered(true, Ok(tokenData)),
                             Answered(stkOk, Ok(data)));
            var r := p.rows[|rows|];
      && !p.response.success && p.response.transactionId == Some(t.transactionCode)
      && p.response.message == (if Truthy(Field(data, "ResponseDescription")) then Field(data, "ResponseDescription")
                                else Str(StkFallbackMessage))
      && r.status == Failed
      && r.metadata == map["errorStage" := Str("stk_push"), "errorDetails" := Doc(data)]
  {
    GatewayUpdatesNewest(rows, nextId, t, Answered(true, Ok(tokenData)), Answered(stkOk, Ok(data)));
  }

  /** A failure once the row exists (a network error, an unreadable body)
      is reported with its message and leaves the row as it was. */
  lemma ThrownAfterCreateLeavesRow(rows: seq<Transaction>, nextId: nat, t: Transaction,
                                   token: FetchOutcome, stk: FetchOutcome, msg: string)
    requires WellKeyed(rows, nextId) && t.id == nextId && !CodeTaken(rows, t.transactionCode)
    requires || token == NetworkFailure(msg) || (token.Answered? && token.body == Err(msg))
             || (token.Answered? && token.ok && token.body.Ok?
                 && (stk == NetworkFailure(msg) || (stk.Answered? && stk.body == Err(msg))))
    ensures var p := Gateway(rows + [t], nextId, t.transactionCode, token, stk);
            p.response == Failure(msg) && p.rows == rows + [t]
  {
    GatewayUpdatesNewest(rows, nextId, t, token, stk);
  }

  /** The call succeeds exactly when the phone is valid, the code is free,
      the token response is ok and readable, the push reply is readable and
      its `ResponseCode` is "0". */
  lemma SuccessExactly(rows: seq<Transaction>, nextId: nat, req: PaymentRequest, now: IsoInstant,
                       draw: Draw, requestId: string, token: FetchOutcome, stk: FetchOutcome)
    ensures Initiate(rows, nextId, req, now, draw, requestId, token, stk).response.success
        <==> && ValidatePhoneNumber(Utils.FormatPhoneNumber(req.phone))
             && !CodeTaken(rows, ReferenceCode(CompactTimestamp(now), draw))
             && token.Answered? && token.ok && token.body.Ok?
             && stk.Answered? && stk.body.Ok? && Field(stk.body.value, "ResponseCode") == Str("0")
  {
  }

  /** The timestamp as written changes only every ten seconds, so a second
      payment within the same ten seconds that draws the same number finds
      its transaction code taken and is refused before anything is
      recorded. */
  lemma SameTenSecondsRefused(rows: seq<Transaction>, nextId: nat, req: PaymentRequest, req2: PaymentRequest,
                              earlier: IsoInstant, now: IsoInstant, draw: Draw, requestId: string,
                              requestId2: string, token: FetchOutcome, stk: FetchOutcome,
                              token2: FetchOutcome, stk2: FetchOutcome)
    requires WellKeyed(rows, nextId)
    requires ValidatePhoneNumber(Utils.FormatPhoneNumber(req.phone))
    requires !CodeTaken(rows, ReferenceCode(CompactTimestamp(earlier), draw))
    requires earlier[..18] == now[..18]
    ensures var first := Initiate(rows, nextId, req, earlier, draw, requestId, token, stk);
            var second := Initiate(first.rows, first.nextId, req2, now, draw, requestId2, token2, stk2);
      && second.rows == first.rows && second.nextId == first.nextId
      && !second.response.success
      && (ValidatePhoneNumber(Utils.FormatPhoneNumber(req2.phone)) ==> second.response == Failure(UniqueViolation))
  {
    var code := ReferenceCode(CompactTimestamp(earlier), draw);
    var row := PendingRow(req, code, Utils.FormatPhoneNumber(req.phone), earlier, requestId).(id := nextId);
    RowRecordedBeforeGateway(rows, nextId, req, earlier, draw, requestId, token, stk);
    CompactTimestampTenSeconds(earlier, now, draw);
    var first := Initiate(rows, nextId, req, earlier, draw, requestId, token, stk);
    assert first.rows[|rows|].transactionCode == code;
    assert CodeTaken(first.rows, ReferenceCode(CompactTimestamp(now), draw));
  }

  // ---------------------------------------------------------------------
  // Status lookup
  // ---------------------------------------------------------------------

  datatype StatusReply = StatusReply(success: bool, message: string, transactionId: Option<string>)

  /** `checkTransactionStatus(transactionCode)`: the row with that code,
      reported with the three-way message, or "Transaction not found". */
  function CheckTransactionStatus(rows: seq<Transaction>, code: string): (r: StatusReply)
    ensures r.transactionId.None? <==> !CodeTaken(rows, code)
    ensures r.transactionId.None? ==> !r.success && r.message == NotFoundMessage
    ensures r.transactionId.Some? ==> r.transactionId.value == code
  {
    match FindFirst(rows, HasCode(code))
    case None => StatusReply(false, NotFoundMessage, None)
    case Some(k) =>
      var t := rows[k];
      StatusReply(t.status == Completed, StatusMessage(t.status), Some(t.transactionCode))
  }

  /** With unique codes, the reply reports the one row with the code:
      success iff it is completed, and the three-way message. */
  lemma StatusReportsTheRow(rows: seq<Transaction>, nextId: nat, k: nat)
    requires WellKeyed(rows, nextId) && k < |rows|
    ensures var r := CheckTransactionStatus(rows, rows[k].transactionCode);
      && (r.success <==> rows[k].status == Completed)
      && r.message == StatusMessage(rows[k].status)
      && r.message != NotFoundMessage
  {
    assert HasCode(rows[k].transactionCode)(rows[k]);
  }

  /** Right after an accepted push, the status lookup of the returned code
      says the payment is still being processed. */
  lemma AcceptedPushReadsPending(rows: seq<Transaction>, nextId: nat, t: Transaction,
                                 tokenData: map<string, Value>, stkOk: bool, data: map<string, Value>)
    requires WellKeyed(rows, nextId) && t.id == nextId && !CodeTaken(rows, t.transactionCode)
    requires IsPersisted(t.metadata) && t.status == Pending
    requires Field(data, "ResponseCode") == Str("0")
    ensures var p := Gateway(rows + [t], nextId, t.transactionCode, Answered(true, Ok(tokenData)),
                             Answered(stkOk, Ok(data)));
            CheckTransactionStatus(p.rows, t.transactionCode) == StatusReply(false, PendingMessage, Some(t.transactionCode))
  {
    var token, stk := Answered(true, Ok(tokenData)), Answered(stkOk, Ok(data));
    AcceptedPushStaysPending(rows, nextId, t, tokenData, stkOk, data);
    GatewayUpdatesNewest(rows, nextId, t, token, stk);
    var p := Gateway(rows + [t], nextId, t.transactionCode, token, stk);
    StatusReportsTheRow(p.rows, p.nextId, |rows|);
  }
}
