/** Outbound webhooks: HMAC signatures over the JSON encoding of a payload,
    a single signed delivery, and the fan-out of a completed payment to every
    active subscriber.

    HMAC-SHA256 (RFC 2104) with hex output and `JSON.stringify` are
    parameters of type `Mac` and `Encoder`; the HTTP post is a parameter
    that maps a request to what came back, and the clock is one
    `IsoInstant` per delivery. */
module Webhook {
  import opened Common
  import opened PaymentStatus
  import opened Timestamps
  import Mpesa

  /** `createHmac("sha256", key).update(message).digest("hex")`. */
  type Mac = (string, string) -> string

  /** `JSON.stringify`. */
  type Encoder = Value -> string

  const PaymentCompletedEvent := "payment.completed"
  const DeliveryTimeout: nat := 10000
  const LengthMismatchMessage := "Input buffers must have the same byte length"

  /** The hex HMAC of the payload's JSON encoding under the secret. */
  function GenerateSignature(mac: Mac, encode: Encoder, payload: Value, secret: string): string {
    mac(secret, encode(payload))
  }

  /** Payloads with the same JSON encoding have the same signature under a
      secret, whatever their structure. */
  lemma SignatureSeesOnlyEncoding(mac: Mac, encode: Encoder, p: Value, q: Value, secret: string)
    requires encode(p) == encode(q)
    ensures GenerateSignature(mac, encode, p, secret) == GenerateSignature(mac, encode, q, secret)
  {
  }

  /** Bytes in the UTF-8 encoding of one character. */
  function Utf8Width(c: char): (n: nat)
    ensures 1 <= n <= 4
  {
    if c as int < 0x80 then 1
    else if c as int < 0x800 then 2
    else if c as int < 0x10000 then 3
    else 4
  }

  /** `Buffer.from(s).length`: bytes in the UTF-8 encoding of `s`. */
  function ByteLength(s: string): (n: nat)
    ensures |s| <= n <= 4 * |s|
  {
    if s == [] then 0 else Utf8Width(s[0]) + ByteLength(s[1..])
  }

  /** `verifySignature`: `timingSafeEqual` of the two UTF-8 buffers, which
      throws a `RangeError` when their byte lengths differ. */
  function VerifySignature(mac: Mac, encode: Encoder, payload: Value, signature: string, secret: string)
    : (r: Result<bool, string>)
    ensures r.Err? <==> ByteLength(signature) != ByteLength(GenerateSignature(mac, encode, payload, secret))
    ensures r.Err? ==> r.error == LengthMismatchMessage
    ensures r == Ok(true) <==> signature == GenerateSignature(mac, encode, payload, secret)
  {
    var expected := GenerateSignature(mac, encode, payload, secret);
    if ByteLength(signature) != ByteLength(expected) then Err(LengthMismatchMessage)
    else Ok(signature == expected)
  }

  /** A signature made by `generateSignature` verifies. */
  lemma SignatureRoundTrip(mac: Mac, encode: Encoder, payload: Value, secret: string)
    ensures VerifySignature(mac, encode, payload, GenerateSignature(mac, encode, payload, secret), secret) == Ok(true)
  {
  }

  /** A wrong signature of the right byte length is refused with `false`;
      one of another length throws instead of returning `false`. */
  lemma WrongSignatureRefused(mac: Mac, encode: Encoder, payload: Value, signature: string, secret: string)
    requires signature != GenerateSignature(mac, encode, payload, secret)
    ensures var r := VerifySignature(mac, encode, payload, signature, secret);
            r == Ok(false) || r == Err(LengthMismatchMessage)
  {
  }

  /** The POST that `sendWebhook` makes. */
  datatype Request = Request(url: string, body: Value, headers: map<string, string>, timeout: nat)

  /** What the POST gave: a response status, or a transport failure such as
      the timeout, with its message. */
  datatype PostOutcome = Status(code: nat) | TransportFailure(message: string)

  /** The result object of `sendWebhook`. */
  datatype SendResult = Sent(statusCode: nat) | NotSent(error: string)

  /** One delivery: the request made and the result reported. */
  datatype Delivery = Delivery(request: Request, result: SendResult)

  /** `{ event, data, timestamp }`. */
  function Envelope(event: string, data: Value, now: IsoInstant): Value {
    Doc(map["event" := Str(event), "data" := data, "timestamp" := Str(now)])
  }

  /** The message axios throws for a status outside 2xx. */
  function HttpErrorMessage(code: nat): string {
    "Request failed with status code " + DecimalString(code)
  }

  /** `sendWebhook`: signs the whole envelope, posts it with the signature
      in `X-Signature` and a 10 s timeout, and reports the outcome without
      throwing. */
  function SendWebhook(mac: Mac, encode: Encoder, post: Request -> PostOutcome, event: string, data: Value,
                       url: string, secret: string, now: IsoInstant): (d: Delivery)
    ensures d.request.url == url && d.request.body == Envelope(event, data, now)
    ensures d.request.timeout == DeliveryTimeout
    ensures "X-Signature" in d.request.headers
    ensures d.request.headers["X-Signature"] == GenerateSignature(mac, encode, d.request.body, secret)
    ensures d.result.Sent? <==> post(d.request).Status? && 200 <= post(d.request).code < 300
    ensures d.result.Sent? ==> d.result.statusCode == post(d.request).code
  {
    var payload := Envelope(event, data, now);
    var signature := GenerateSignature(mac, encode, payload, secret);
    var request := Request(url, payload,
                           map["Content-Type" := "application/json", "X-Signature" := signature],
                           DeliveryTimeout);
    match post(request)
    case Status(code) =>
      if 200 <= code < 300 then Delivery(request, Sent(code))
      else Delivery(request, NotSent(HttpErrorMessage(code)))
    case TransportFailure(msg) => Delivery(request, NotSent(msg))
  }

  /** The receiver, holding the same secret, accepts what was sent. */
  lemma DeliveredSignatureVerifies(mac: Mac, encode: Encoder, post: Request -> PostOutcome, event: string,
                                   data: Value, url: string, secret: string, now: IsoInstant)
    ensures var d := SendWebhook(mac, encode, post, event, data, url, secret, now);
            VerifySignature(mac, encode, d.request.body, d.request.headers["X-Signature"], secret) == Ok(true)
  {
  }

  /** A row of the webhook subscription table. */
  datatype Subscription = Subscription(url: string, secret: string, events: seq<string>, isActive: bool)

  predicate Wants(s: Subscription) {
    s.isActive && PaymentCompletedEvent in s.events
  }

  /** The active subscriptions to "payment.completed", in table order. */
  function Selected(subs: seq<Subscription>): (r: seq<Subscription>)
    ensures |r| <= |subs|
    ensures forall s :: s in r <==> s in subs && Wants(s)
  {
    if subs == [] then []
    else (if Wants(subs[0]) then [subs[0]] else []) + Selected(subs[1..])
  }

  /** Selection keeps table order: the selection of a concatenation is the
      concatenation of the selections. */
  lemma {:induction false} SelectedAppend(a: seq<Subscription>, b: seq<Subscription>)
    ensures Selected(a + b) == Selected(a) + Selected(b)
  {
    if a == [] {
      assert a + b == b;
    } else {
      assert (a + b)[0] == a[0];
      assert (a + b)[1..] == a[1..] + b;
      SelectedAppend(a[1..], b);
    }
  }

  /** One subscription is selected once if it wants the event, else not at
      all; with `SelectedAppend` this fixes the selection of every table. */
  lemma SelectedSingle(s: Subscription)
    ensures Selected([s]) == if Wants(s) then [s] else []
  {
    assert [s][1..] == [];
  }

  /** The `data` of a payment notification. */
  function PaymentData(t: Mpesa.Transaction): Value {
    Doc(map["transactionId" := Str(t.id),
            "reference" := Str(t.reference),
            "amount" := Num(t.amount),
            "status" := Str(StatusName(t.status)),
            "packageId" := (if t.packageId.Some? then Str(t.packageId.value) else Null),
            "userId" := Str(t.userId),
            "createdAt" := Str(t.createdAt)])
  }

  /** The deliveries of one notification to each target, in order; the k-th
      delivery reads the clock as `clock(k)`. */
  function Deliveries(mac: Mac, encode: Encoder, post: Request -> PostOutcome, targets: seq<Subscription>,
                      data: Value, clock: nat -> IsoInstant): (ds: seq<Delivery>)
    ensures |ds| == |targets|
    ensures forall k :: 0 <= k < |targets| ==>
      && ds[k].request.url == targets[k].url
      && ds[k].request.body == Envelope(PaymentCompletedEvent, data, clock(k))
      && "X-Signature" in ds[k].request.headers
      && ds[k].request.headers["X-Signature"] == GenerateSignature(mac, encode, ds[k].request.body, targets[k].secret)
  {
    var ds := seq(|targets|, k requires 0 <= k < |targets| =>
      SendWebhook(mac, encode, post, PaymentCompletedEvent, data, targets[k].url, targets[k].secret, clock(k)));
    assert forall k :: 0 <= k < |targets| ==>
      ds[k] == SendWebhook(mac, encode, post, PaymentCompletedEvent, data, targets[k].url, targets[k].secret, clock(k));
    ds
  }

  lemma DeliveriesAt(mac: Mac, encode: Encoder, post: Request -> PostOutcome, targets: seq<Subscription>,
                     data: Value, clock: nat -> IsoInstant, k: nat)
    requires k < |targets|
    ensures Deliveries(mac, encode, post, targets, data, clock)[k]
         == SendWebhook(mac, encode, post, PaymentCompletedEvent, data, targets[k].url, targets[k].secret, clock(k))
  {
  }

  /** `processPaymentWebhook(transactionId)`: looks the transaction up and
      sends one signed "payment.completed" notification to each selected
      subscription in turn.  Nothing is sent for an unknown id. */
  method ProcessPaymentWebhook(mac: Mac, encode: Encoder, post: Request -> PostOutcome,
                               db: Mpesa.TransactionTable, subs: seq<Subscription>, transactionId: string,
                               clock: nat -> IsoInstant)
    returns (sent: seq<Delivery>)
    ensures match FindFirst(db.rows, Mpesa.HasId(transactionId))
            case None => sent == []
            case Some(k) => sent == Deliveries(mac, encode, post, Selected(subs), PaymentData(db.rows[k]), clock)
  {
    var found := FindFirst(db.rows, Mpesa.HasId(transactionId));
    if found.None? {
      return [];
    }
    var webhooks := Selected(subs);
    var data := PaymentData(db.rows[found.value]);
    if |webhooks| == 0 {
      return [];
    }
    sent := [];
    var i := 0;
    while i < |webhooks|
      invariant 0 <= i <= |webhooks|
      invariant |sent| == i
      invariant forall k :: 0 <= k < i ==>
        sent[k] == SendWebhook(mac, encode, post, PaymentCompletedEvent, data, webhooks[k].url, webhooks[k].secret, clock(k))
    {
      var d := SendWebhook(mac, encode, post, PaymentCompletedEvent, data, webhooks[i].url, webhooks[i].secret, clock(i));
      sent := sent + [d];
      i := i + 1;
    }
    var ds := Deliveries(mac, encode, post, webhooks, data, clock);
    forall k | 0 <= k < |webhooks|
      ensures sent[k] == ds[k]
    {
      DeliveriesAt(mac, encode, post, webhooks, data, clock, k);
    }
    assert sent == ds;
  }

  /** Every selected subscriber gets exactly one notification, at its own
      url and signed with its own secret, whatever happened to the
      deliveries before it; no one else gets any. */
  lemma EachSubscriberNotifiedOnce(mac: Mac, encode: Encoder, post: Request -> PostOutcome,
                                   subs: seq<Subscription>, data: Value, clock: nat -> IsoInstant, k: nat)
    requires k < |Selected(subs)|
    ensures var ds := Deliveries(mac, encode, post, Selected(subs), data, clock);
            var s := Selected(subs)[k];
      && |ds| == |Selected(subs)|
      && ds[k].request.url == s.url
      && ds[k].request.body == Envelope(PaymentCompletedEvent, data, clock(k))
      && "X-Signature" in ds[k].request.headers
      && VerifySignature(mac, encode, ds[k].request.body, ds[k].request.headers["X-Signature"], s.secret) == Ok(true)
      && s in subs && s.isActive && PaymentCompletedEvent in s.events
  {
    var s := Selected(subs)[k];
    assert s in Selected(subs);
  }

  /** With no active subscriber to the event, nothing is sent. */
  lemma {:induction false} NoSubscriberNoDelivery(mac: Mac, encode: Encoder, post: Request -> PostOutcome,
                               subs: seq<Subscription>, data: Value, clock: nat -> IsoInstant)
    requires forall j :: 0 <= j < |subs| ==> !Wants(subs[j])
    ensures Selected(subs) == []
    ensures Deliveries(mac, encode, post, Selected(subs), data, clock) == []
  {
    if subs != [] {
      NoSubscriberNoDelivery(mac, encode, post, subs[1..], data, clock);
    }
  }
}
