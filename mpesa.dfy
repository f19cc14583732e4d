/** The string-keyed payment engine: STK push initiation, callback
    reconciliation and the status lookup by reference.

    The transaction table is a sequence of rows in insertion order, so a
    `findFirst` is the lowest matching index.  The gateway calls are inputs
    (`Attempt` per invocation, see `Retry`), the clock is an `IsoInstant`,
    `Math.random()` a `Draw` and `uuidv4()` the `requestId` parameter. */
module Mpesa {
  import opened Common
  import opened Retry
  import opened Timestamps
  import opened PaymentStatus
  import Utils

  const AuthFailedMessage := "Failed to authenticate with M-Pesa"
  const InitiateErrorPrefix := "Failed to initiate M-Pesa payment: "

  datatype Transaction = Transaction(
    id: string,
    amount: int,
    status: Status,
    reference: string,
    phone: string,
    userId: string,
    packageId: Option<string>,
    metadata: map<string, Value>,
    createdAt: string)

  /** The table's unique keys: no two rows share an id or a reference. */
  ghost predicate UniqueKeys(rows: seq<Transaction>) {
    forall i, j :: 0 <= i < j < |rows| ==>
      rows[i].id != rows[j].id && rows[i].reference != rows[j].reference
  }

  /** Inserting `t` would violate a unique key. */
  predicate Conflicts(rows: seq<Transaction>, t: Transaction) {
    exists i :: 0 <= i < |rows| && (rows[i].id == t.id || rows[i].reference == t.reference)
  }

  /** The transaction table. */
  class TransactionTable {
    var rows: seq<Transaction>

    constructor()
      ensures rows == []
    {
      rows := [];
    }

    /** `prisma.transaction.create`: appends the row, or fails with a unique
        constraint violation and leaves the table alone. */
    method Create(t: Transaction) returns (created: bool)
      modifies this
      ensures created == !Conflicts(old(rows), t)
      ensures rows == if created then old(rows) + [t] else old(rows)
    {
      if Conflicts(rows, t) {
        created := false;
      } else {
        rows := rows + [t];
        created := true;
      }
    }
  }

  /** A successful insert keeps the keys unique. */
  lemma CreateKeepsKeysUnique(rows: seq<Transaction>, t: Transaction)
    requires UniqueKeys(rows) && !Conflicts(rows, t)
    ensures UniqueKeys(rows + [t])
  {
    var r := rows + [t];
    forall i, j | 0 <= i < j < |r|
      ensures r[i].id != r[j].id && r[i].reference != r[j].reference
    {
      if j == |rows| {
        assert r[i] == rows[i];
      }
    }
  }

  // ---------------------------------------------------------------------
  // Initiation
  // ---------------------------------------------------------------------

  /** What `initiateSTKPush` returns to its caller. */
  datatype StkPushResult = StkPushResult(
    success: bool,
    transactionId: string,
    message: Value,
    responseDescription: Value)

  /** The pending row written once the gateway has answered: metadata keeps
      the gateway's reply, the timestamp and the gateway's checkout id.  The
      creation time is the table's default, the time of the insert. */
  function PendingRow(id: string, amount: int, reference: string, phone: string, userId: string,
                      packageId: Option<string>, timestamp: string, reply: map<string, Value>,
                      createdAt: string): (t: Transaction)
    ensures t.id == id && t.reference == reference && t.status == Pending
    ensures IsPersisted(t.metadata)
    ensures "request" in t.metadata && "timestamp" in t.metadata
    ensures t.metadata["request"] == Doc(reply) && t.metadata["timestamp"] == Str(timestamp)
    ensures "checkoutRequestId" in t.metadata <==> !Field(reply, "CheckoutRequestID").Undefined?
    ensures "checkoutRequestId" in t.metadata ==> t.metadata["checkoutRequestId"] == reply["CheckoutRequestID"]
  {
    Transaction(id, amount, Pending, reference, phone, userId, packageId,
      Persist(map["request" := Doc(reply),
                  "timestamp" := Str(timestamp),
                  "checkoutRequestId" := Field(reply, "CheckoutRequestID")]),
      createdAt)
  }

  /** The caller's view of a gateway reply: success iff `ResponseCode` is the
      string "0"; the id handed back is the merchant reference. */
  function PushResult(reply: map<string, Value>, reference: string): (r: StkPushResult)
    ensures r.success <==> Field(reply, "ResponseCode") == Str("0")
    ensures r.transactionId == reference
  {
    StkPushResult(Field(reply, "ResponseCode") == Str("0"), reference,
                  Field(reply, "ResponseDescription"), Field(reply, "ResponseDescription"))
  }

  /** `error.message` of what `makeApiCall` rethrew.  With three attempts an
      error is always present (`AllFailuresRethrowLast`). */
  function RethrownMessage(e: Option<ApiError>): string {
    match e
    case Some(err) => err.message
    case None => ""
  }

  /** The outcome of an initiation: the result or the thrown message, and the
      table afterwards. */
  datatype Initiation = Initiation(result: Result<StkPushResult, string>, rows: seq<Transaction>)

  /** `initiateSTKPush` as a function of the table, the inputs and how the
      token and push calls settled. */
  function Initiate(rows: seq<Transaction>, phone: string, amount: int, userId: string,
                    packageId: Option<string>, now: IsoInstant, draw: Draw, requestId: string,
                    token: Settled<string>, push: Settled<map<string, Value>>): (i: Initiation)
    ensures i.result.Err? ==> i.rows == rows && StartsWith(i.result.error, InitiateErrorPrefix)
    ensures i.result.Ok? ==>
      && |i.rows| == |rows| + 1 && i.rows[..|rows|] == rows
      && i.rows[|rows|].status == Pending
      && i.rows[|rows|].id == requestId
      && i.result.value.transactionId == i.rows[|rows|].reference
    ensures token.Rejected? || push.Rejected? ==> i.result.Err?
    ensures token.Resolved? && push.Resolved? ==>
      (i.result.Ok? <==> forall j :: 0 <= j < |rows| ==>
         rows[j].id != requestId && rows[j].reference != ReferenceCode(CompactTimestamp(now), draw))
  {
    if token.Rejected? then
      Initiation(Err(InitiateErrorPrefix + AuthFailedMessage), rows)
    else if push.Rejected? then
      Initiation(Err(InitiateErrorPrefix + RethrownMessage(push.error)), rows)
    else
      var timestamp := CompactTimestamp(now);
      var reference := ReferenceCode(timestamp, draw);
      var row := PendingRow(requestId, amount, reference, Utils.FormatPhoneNumber(phone),
                            userId, packageId, timestamp, push.value, now);
      if Conflicts(rows, row) then Initiation(Err(InitiateErrorPrefix + UniqueViolation), rows)
      else Initiation(Ok(PushResult(push.value, reference)), rows + [row])
  }

  /** Obtains a token, pushes the payment request, then records the pending
      row; any failure is rethrown with the "Failed to initiate M-Pesa
      payment: " prefix. */
  method InitiateSTKPush(db: TransactionTable, phone: string, amount: int, userId: string,
                         packageId: Option<string>, now: IsoInstant, draw: Draw, requestId: string,
                         tokenCall: nat -> Attempt<string>, pushCall: nat -> Attempt<map<string, Value>>)
    returns (r: Result<StkPushResult, string>, tokenCalls: nat, pushCalls: nat)
    modifies db
    ensures var token := Outcome(tokenCall, DefaultMaxRetries);
            var i := Initiate(old(db.rows), phone, amount, userId, packageId, now, draw, requestId,
                              token, Outcome(pushCall, DefaultMaxRetries));
            r == i.result && db.rows == i.rows
    ensures tokenCalls == Calls(tokenCall, DefaultMaxRetries)
    ensures pushCalls == if Outcome(tokenCall, DefaultMaxRetries).Rejected? then 0
                         else Calls(pushCall, DefaultMaxRetries)
  {
    var token, waits;
    token, tokenCalls, waits := MakeApiCall(tokenCall, DefaultMaxRetries, DefaultDelay);
    pushCalls := 0;
    if token.Rejected? {
      r := Err(InitiateErrorPrefix + AuthFailedMessage);
      return;
    }
    var timestamp := CompactTimestamp(now);
    var formattedPhone := Utils.FormatPhoneNumber(phone);
    var reference := ReferenceCode(timestamp, draw);
    var push;
    push, pushCalls, waits := MakeApiCall(pushCall, DefaultMaxRetries, DefaultDelay);
    if push.Rejected? {
      r := Err(InitiateErrorPrefix + RethrownMessage(push.error));
      return;
    }
    var row := PendingRow(requestId, amount, reference, formattedPhone, userId, packageId, timestamp, push.value, now);
    var created := db.Create(row);
    if !created {
      r := Err(InitiateErrorPrefix + UniqueViolation);
      return;
    }
    r := Ok(PushResult(push.value, reference));
  }

  /** Nothing is written unless both gateway calls return: a failed token or
      push call leaves the table as it was and rethrows with the prefix. */
  lemma NoRowBeforeGatewayAnswers(rows: seq<Transaction>, phone: string, amount: int, userId: string,
                                  packageId: Option<string>, now: IsoInstant, draw: Draw, requestId: string,
                                  token: Settled<string>, push: Settled<map<string, Value>>)
    requires token.Rejected? || push.Rejected?
    ensures var i := Initiate(rows, phone, amount, userId, packageId, now, draw, requestId, token, push);
            i.rows == rows && i.result.Err? && StartsWith(i.result.error, InitiateErrorPrefix)
  {
  }

  /** A returned initiation appends exactly one pending row, keyed by the new
      request id and the reference, carrying the formatted phone and the
      gateway's checkout id; the caller gets the reference, and `success`
      only says whether the gateway accepted the request. */
  lemma InitiationAppendsPendingRow(rows: seq<Transaction>, phone: string, amount: int, userId: string,
                                    packageId: Option<string>, now: IsoInstant, draw: Draw, requestId: string,
                                    token: Settled<string>, push: Settled<map<string, Value>>)
    requires UniqueKeys(rows)
    requires Initiate(rows, phone, amount, userId, packageId, now, draw, requestId, token, push).result.Ok?
    ensures var i := Initiate(rows, phone, amount, userId, packageId, now, draw, requestId, token, push);
            var row := i.rows[|rows|];
            && push.Resolved?
            && |i.rows| == |rows| + 1 && i.rows[..|rows|] == rows
            && UniqueKeys(i.rows)
            && row.id == requestId && row.status == Pending
            && row.phone == Utils.FormatPhoneNumber(phone)
            && row.reference == i.result.value.transactionId
            && row.reference == ReferenceCode(CompactTimestamp(now), draw)
            && Field(row.metadata, "timestamp") == Str(CompactTimestamp(now))
            && (i.result.value.success <==> Field(push.value, "ResponseCode") == Str("0"))
            && ("checkoutRequestId" in row.metadata <==> !Field(push.value, "CheckoutRequestID").Undefined?)
  {
    var i := Initiate(rows, phone, amount, userId, packageId, now, draw, requestId, token, push);
    CreateKeepsKeysUnique(rows, i.rows[|rows|]);
  }

  /** A unique-key collision (a row with the same request id, or with the
      reference the code builds) rethrows and writes nothing. */
  lemma CollisionWritesNothing(rows: seq<Transaction>, phone: string, amount: int, userId: string,
                               packageId: Option<string>, now: IsoInstant, draw: Draw, requestId: string,
                               token: Settled<string>, push: Settled<map<string, Value>>, k: nat)
    requires token.Resolved? && push.Resolved?
    requires k < |rows|
    requires rows[k].id == requestId || rows[k].reference == ReferenceCode(CompactTimestamp(now), draw)
    ensures var i := Initiate(rows, phone, amount, userId, packageId, now, draw, requestId, token, push);
            i.rows == rows && i.result == Err(InitiateErrorPrefix + UniqueViolation)
  {
    var timestamp := CompactTimestamp(now);
    var row := PendingRow(requestId, amount, ReferenceCode(timestamp, draw), Utils.FormatPhoneNumber(phone),
                          userId, packageId, timestamp, push.value, now);
    assert rows[k].id == row.id || rows[k].reference == row.reference;
  }

  /** Because the timestamp as written stops at the tens digit of the
      seconds, a second payment within the same ten seconds that draws the
      same number collides with the first one's reference and is refused,
      whatever its request id. */
  lemma SameTenSecondsCollide(rows: seq<Transaction>, phone: string, amount: int, userId: string,
                              packageId: Option<string>, phone2: string, amount2: int, userId2: string,
                              packageId2: Option<string>, earlier: IsoInstant, now: IsoInstant, draw: Draw,
                              requestId: string, requestId2: string,
                              token: Settled<string>, push: Settled<map<string, Value>>)
    requires earlier[..18] == now[..18]
    requires token.Resolved? && push.Resolved?
    requires Initiate(rows, phone, amount, userId, packageId, earlier, draw, requestId, token, push).result.Ok?
    ensures var first := Initiate(rows, phone, amount, userId, packageId, earlier, draw, requestId, token, push);
            var second := Initiate(first.rows, phone2, amount2, userId2, packageId2, now, draw, requestId2, token, push);
            second.rows == first.rows && second.result == Err(InitiateErrorPrefix + UniqueViolation)
  {
    var first := Initiate(rows, phone, amount, userId, packageId, earlier, draw, requestId, token, push);
    CompactTimestampTenSeconds(earlier, now, draw);
    CollisionWritesNothing(first.rows, phone2, amount2, userId2, packageId2, now, draw, requestId2, token, push, |rows|);
  }

  // ---------------------------------------------------------------------
  // Callback reconciliation
  // ---------------------------------------------------------------------

  /** One `{Name, Value}` entry of `CallbackMetadata.Item`. */
  datatype Item = Item(name: Value, value: Value)

  /** `data.Body.stkCallback`.  `items` is `None` when
      `CallbackMetadata.Item` cannot be read. */
  datatype StkCallback = StkCallback(
    checkoutRequestId: Value,
    resultCode: Value,
    resultDesc: Value,
    items: Option<seq<Item>>)

  /** A callback as posted: the whole JSON body, and its `stkCallback` when
      `data.Body.stkCallback` can be read. */
  datatype CallbackData = CallbackData(raw: Value, stk: Option<StkCallback>)

  /** `items.find(i => i.Name === name)?.Value`. */
  function ItemValue(items: seq<Item>, name: string): (v: Value)
    ensures (forall j :: 0 <= j < |items| ==> items[j].name != Str(name)) ==> v == Undefined
    ensures (exists j :: 0 <= j < |items| && items[j].name == Str(name)) ==>
      exists j :: (0 <= j < |items| && items[j].name == Str(name) && v == items[j].value
                   && forall m :: 0 <= m < j ==> items[m].name != Str(name))
  {
    match FindFirst(items, (it: Item) => it.name == Str(name))
    case Some(k) => items[k].value
    case None => Undefined
  }

  /** The row a gateway checkout id refers to.  A callback without a checkout
      id matches nothing. */
  function MatchesCheckout(id: Value): Transaction -> bool {
    (t: Transaction) => !id.Undefined? && Field(t.metadata, "checkoutRequestId") == id
  }

  /** The metadata a successful callback merges in. */
  function SuccessUpdates(items: seq<Item>, raw: Value): map<string, Value> {
    map["receiptNumber" := ItemValue(items, "MpesaReceiptNumber"),
        "amountPaid" := ItemValue(items, "Amount"),
        "phone" := ItemValue(items, "PhoneNumber"),
        "transactionDate" := ItemValue(items, "TransactionDate"),
        "callbackData" := raw]
  }

  /** The metadata a failed callback merges in. */
  function FailureUpdates(raw: Value, resultDesc: Value, now: IsoInstant): map<string, Value> {
    map["callbackData" := raw, "error" := resultDesc, "failedAt" := Str(now)]
  }

  /** `handleCallback` as a function of the table: find the first row with
      the callback's checkout id; result code "0" completes it, anything else
      fails it.  An unreadable body, an unknown checkout id or unreadable
      items on success leave the table as it was (the error is swallowed). */
  function CallbackEffect(rows: seq<Transaction>, data: CallbackData, now: IsoInstant): (after: seq<Transaction>)
    ensures |after| == |rows|
    ensures forall j :: 0 <= j < |rows| ==>
      after[j] == rows[j].(status := after[j].status, metadata := after[j].metadata)
    ensures data.stk.None? ==> after == rows
    ensures data.stk.Some? && FindFirst(rows, MatchesCheckout(data.stk.value.checkoutRequestId)).None? ==> after == rows
  {
    match data.stk
    case None => rows
    case Some(cb) =>
      match FindFirst(rows, MatchesCheckout(cb.checkoutRequestId))
      case None => rows
      case Some(i) =>
        if cb.resultCode == Str("0") then
          match cb.items
          case None => rows
          case Some(items) =>
            rows[i := rows[i].(status := Completed,
                               metadata := Spread(rows[i].metadata, SuccessUpdates(items, data.raw)))]
        else
          rows[i := rows[i].(status := Failed,
                             metadata := Spread(rows[i].metadata, FailureUpdates(data.raw, cb.resultDesc, now)))]
  }

  /** Applies a gateway callback to the table.  It never throws. */
  method HandleCallback(db: TransactionTable, data: CallbackData, now: IsoInstant)
    modifies db
    ensures db.rows == CallbackEffect(old(db.rows), data, now)
  {
    if data.stk.None? {
      return;
    }
    var cb := data.stk.value;
    var found := FindFirst(db.rows, MatchesCheckout(cb.checkoutRequestId));
    if found.None? {
      return;
    }
    var i := found.value;
    var t := db.rows[i];
    if cb.resultCode == Str("0") {
      if cb.items.None? {
        return;
      }
      var updates := SuccessUpdates(cb.items.value, data.raw);
      db.rows := db.rows[i := t.(status := Completed, metadata := Spread(t.metadata, updates))];
    } else {
      var updates := FailureUpdates(data.raw, cb.resultDesc, now);
      db.rows := db.rows[i := t.(status := Failed, metadata := Spread(t.metadata, updates))];
    }
  }

  /** A callback whose checkout id matches no row changes nothing. */
  lemma UnknownCheckoutChangesNothing(rows: seq<Transaction>, data: CallbackData, now: IsoInstant)
    requires data.stk.Some?
    requires forall j :: 0 <= j < |rows| ==> Field(rows[j].metadata, "checkoutRequestId") != data.stk.value.checkoutRequestId
    ensures CallbackEffect(rows, data, now) == rows
  {
  }

  /** Only the matched row changes, and only in its status and metadata. */
  lemma CallbackTouchesOneRow(rows: seq<Transaction>, data: CallbackData, now: IsoInstant)
    ensures var after := CallbackEffect(rows, data, now);
      && |after| == |rows|
      && (forall j :: 0 <= j < |rows| ==>
            after[j] == rows[j].(status := after[j].status, metadata := after[j].metadata))
      && (forall j :: 0 <= j < |rows| && after[j] != rows[j] ==>
            data.stk.Some? && FindFirst(rows, MatchesCheckout(data.stk.value.checkoutRequestId)) == Some(j))
  {
  }

  /** Result code "0" with readable items completes the matched row and merges
      the first receipt number, amount, phone and date into its metadata,
      keeping every other key. */
  lemma SuccessCompletes(rows: seq<Transaction>, data: CallbackData, now: IsoInstant, i: nat)
    requires data.stk.Some? && data.stk.value.resultCode == Str("0") && data.stk.value.items.Some?
    requires FindFirst(rows, MatchesCheckout(data.stk.value.checkoutRequestId)) == Some(i)
    ensures var t := CallbackEffect(rows, data, now)[i];
            var items := data.stk.value.items.value;
      && t.status == Completed
      && Field(t.metadata, "receiptNumber") == ItemValue(items, "MpesaReceiptNumber")
      && Field(t.metadata, "amountPaid") == ItemValue(items, "Amount")
      && Field(t.metadata, "phone") == ItemValue(items, "PhoneNumber")
      && Field(t.metadata, "transactionDate") == ItemValue(items, "TransactionDate")
      && Field(t.metadata, "callbackData") == data.raw
      && forall k :: (k in rows[i].metadata && !rows[i].metadata[k].Undefined?
                      && k !in SuccessUpdates(items, data.raw)) ==> k in t.metadata && t.metadata[k] == rows[i].metadata[k]
  {
    var items := data.stk.value.items.value;
    var u := SuccessUpdates(items, data.raw);
    var m := Spread(rows[i].metadata, u);
    assert CallbackEffect(rows, data, now)[i] == rows[i].(status := Completed, metadata := m);
    SpreadField(rows[i].metadata, u, "receiptNumber");
    SpreadField(rows[i].metadata, u, "amountPaid");
    SpreadField(rows[i].metadata, u, "phone");
    SpreadField(rows[i].metadata, u, "transactionDate");
    SpreadField(rows[i].metadata, u, "callbackData");
  }

  /** Any other result code fails the matched row with the result
      description as its error and the callback time. */
  lemma OtherCodesFail(rows: seq<Transaction>, data: CallbackData, now: IsoInstant, i: nat)
    requires data.stk.Some? && data.stk.value.resultCode != Str("0")
    requires FindFirst(rows, MatchesCheckout(data.stk.value.checkoutRequestId)) == Some(i)
    ensures var t := CallbackEffect(rows, data, now)[i];
      && t.status == Failed
      && Field(t.metadata, "error") == data.stk.value.resultDesc
      && Field(t.metadata, "failedAt") == Str(now)
  {
  }

  /** The result code is compared with the string "0": a numeric 0 takes the
      failure branch. */
  lemma NumericZeroIsFailure(rows: seq<Transaction>, data: CallbackData, now: IsoInstant, i: nat)
    requires data.stk.Some? && data.stk.value.resultCode == Num(0)
    requires FindFirst(rows, MatchesCheckout(data.stk.value.checkoutRequestId)) == Some(i)
    ensures CallbackEffect(rows, data, now)[i].status == Failed
  {
  }

  /** A callback never changes which row a checkout id resolves to. */
  lemma CallbackKeepsLookup(rows: seq<Transaction>, data: CallbackData, now: IsoInstant, id: Value)
    ensures FindFirst(CallbackEffect(rows, data, now), MatchesCheckout(id)) == FindFirst(rows, MatchesCheckout(id))
  {
    var after := CallbackEffect(rows, data, now);
    forall j | 0 <= j < |rows|
      ensures MatchesCheckout(id)(after[j]) == MatchesCheckout(id)(rows[j])
    {
      if after[j] != rows[j] {
        var m, m' := rows[j].metadata, after[j].metadata;
        assert "checkoutRequestId" in m' <==> "checkoutRequestId" in m && !m["checkoutRequestId"].Undefined?;
      }
    }
    FindFirstAlike(after, MatchesCheckout(id), rows, MatchesCheckout(id));
  }

  /** No state is terminal: a failure callback after a success callback for
      the same checkout id leaves the row failed, and the reverse leaves it
      completed. */
  lemma LaterCallbackWins(rows: seq<Transaction>, first: CallbackData, second: CallbackData, now: IsoInstant, i: nat)
    requires first.stk.Some? && second.stk.Some?
    requires FindFirst(rows, MatchesCheckout(second.stk.value.checkoutRequestId)) == Some(i)
    requires second.stk.value.resultCode == Str("0") ==> second.stk.value.items.Some?
    ensures var after := CallbackEffect(CallbackEffect(rows, first, now), second, now);
            after[i].status == if second.stk.value.resultCode == Str("0") then Completed else Failed
  {
    CallbackKeepsLookup(rows, first, now, second.stk.value.checkoutRequestId);
  }

  /** Delivering the same callback twice at the same time is delivering it
      once. */
  lemma CallbackIdempotent(rows: seq<Transaction>, data: CallbackData, now: IsoInstant)
    ensures CallbackEffect(CallbackEffect(rows, data, now), data, now) == CallbackEffect(rows, data, now)
  {
    var once := CallbackEffect(rows, data, now);
    if data.stk.Some? {
      var cb := data.stk.value;
      CallbackKeepsLookup(rows, data, now, cb.checkoutRequestId);
      match FindFirst(rows, MatchesCheckout(cb.checkoutRequestId))
      case None =>
      case Some(i) =>
        if cb.resultCode == Str("0") {
          if cb.items.Some? {
            SpreadIdempotent(rows[i].metadata, SuccessUpdates(cb.items.value, data.raw));
          }
        } else {
          SpreadIdempotent(rows[i].metadata, FailureUpdates(data.raw, cb.resultDesc, now));
        }
    }
  }

  /** Callbacks keep the table's keys unique. */
  lemma CallbackKeepsKeysUnique(rows: seq<Transaction>, data: CallbackData, now: IsoInstant)
    requires UniqueKeys(rows)
    ensures UniqueKeys(CallbackEffect(rows, data, now))
  {
    CallbackTouchesOneRow(rows, data, now);
  }

  // ---------------------------------------------------------------------
  // Status lookup
  // ---------------------------------------------------------------------

  /** The fields a found transaction reports. */
  datatype StatusDetails = StatusDetails(transactionId: string, status: Status, metadata: map<string, Value>)

  datatype StatusReply = StatusReply(success: bool, message: string, details: Option<StatusDetails>)

  function HasId(id: string): Transaction -> bool {
    (t: Transaction) => t.id == id
  }

  function HasReference(reference: string): Transaction -> bool {
    (t: Transaction) => t.reference == reference
  }

  /** `checkTransactionStatus(reference)`: the first row with that
      reference, reported with the three-way message, or "Transaction not
      found". */
  function CheckTransactionStatus(rows: seq<Transaction>, reference: string): (r: StatusReply)
    ensures r.details.None? <==> forall j :: 0 <= j < |rows| ==> rows[j].reference != reference
    ensures r.details.None? ==> !r.success && r.message == NotFoundMessage
    ensures r.details.Some? ==>
      exists j :: 0 <= j < |rows| && rows[j].reference == reference
        && r.details.value == StatusDetails(reference, rows[j].status, rows[j].metadata)
    ensures r.details.Some? ==>
      && (r.success <==> r.details.value.status == Completed)
      && r.message == StatusMessage(r.details.value.status)
  {
    match FindFirst(rows, HasReference(reference))
    case None => StatusReply(false, NotFoundMessage, None)
    case Some(k) =>
      var t := rows[k];
      StatusReply(t.status == Completed, StatusMessage(t.status), Some(StatusDetails(t.reference, t.status, t.metadata)))
  }

  /** The reply says "Transaction not found" exactly when no row has the
      reference; with unique references the reply reports that row. */
  lemma StatusReportsTheRow(rows: seq<Transaction>, reference: string, k: nat)
    requires UniqueKeys(rows)
    requires k < |rows| && rows[k].reference == reference
    ensures CheckTransactionStatus(rows, reference).message != NotFoundMessage
    ensures CheckTransactionStatus(rows, reference).details == Some(StatusDetails(reference, rows[k].status, rows[k].metadata))
    ensures CheckTransactionStatus(rows, reference).success <==> rows[k].status == Completed
  {
  }

  /** After a successful callback, the status lookup of that row's reference
      reports the payment completed. */
  lemma CompletedCallbackIsReported(rows: seq<Transaction>, data: CallbackData, now: IsoInstant, i: nat)
    requires UniqueKeys(rows)
    requires data.stk.Some? && data.stk.value.resultCode == Str("0") && data.stk.value.items.Some?
    requires FindFirst(rows, MatchesCheckout(data.stk.value.checkoutRequestId)) == Some(i)
    ensures var r := CheckTransactionStatus(CallbackEffect(rows, data, now), rows[i].reference);
            r.success && r.message == CompletedMessage
  {
    var after := CallbackEffect(rows, data, now);
    CallbackKeepsKeysUnique(rows, data, now);
    StatusReportsTheRow(after, rows[i].reference, i);
  }
}
