# M-Pesa data-bundle shop: a verified model of the payment core

The shop sells mobile-data bundles paid through M-Pesa, Safaricom's
mobile-money gateway, with the Lipa Na M-Pesa Online ("STK push") flow. A
payment is initiated by the shop. The gateway then asks the customer's phone
to confirm, and it reports the result later through a callback. This project
models the parts of the shop that decide what happens to money and accounts,
and proves properties of them:

- **Two payment engines.**
  - `Mpesa` is keyed on string ids. It is used by the payment, status and
    callback endpoints. It covers the retry helper (`Retry`), initiation,
    callback reconciliation and the status lookup.
  - `MpesaService` is keyed on numeric ids. It is used by the stk-push and
    query-status endpoints.
  - Both build the gateway timestamp and the merchant reference code in the
    same way (`Timestamps`). The model uses the timestamp the code actually
    produces, "YYYYMMDDTHHmms" (see Findings). So references change only
    every ten seconds. Both share the three-way status message
    (`PaymentStatus`) and the phone-number rules (`Utils`).
- **Webhook fan-out** (`Webhook`). A payment notification is signed with
  HMAC-SHA256 (RFC 2104). It is posted once to each active subscriber.
- **Rate limiting.** `RateLimit` is the per-token counter. `Middleware`
  routes `/api/auth` and `/api/mpesa` requests to two separate limiters and
  sets the security headers.
- **Accounts and sessions.** `Auth` has string ids and day-long sessions.
  `AuthService` has numeric ids and hour-long sessions. Both count failed
  logins and lock an account for 15 minutes at the fifth failure.
- **The five payment endpoints** (`Routes`). Each is a guard chain that
  checks the caller, then the body, then the package, then calls the engine.

The payment tables, the user table, the session table and the limiter caches
are classes whose methods update them in place. Each method is proved equal
to a specification function of the old state. The lemmas are stated about
those functions. The gateway, `fetch`/axios, HMAC, `JSON.stringify`, bcrypt,
the random generator and the clock are all inputs:

- A gateway call is a function from the attempt number to "returned" or
  "threw".
- A fetch is a `FetchOutcome`.
- The clock is an ISO-8601 string or a number of milliseconds.

Where the code departs from the usual STK-push flow, the model follows the code:

- `lib/mpesa.ts` writes the pending row only after the gateway has answered.
  A failed token or push leaves no row (`Mpesa.NoRowBeforeGatewayAnswers`).
- A callback never looks at the current status, so a later callback
  overwrites a completed or failed row (`Mpesa.LaterCallbackWins`).
- `makeApiCall` retries every error, including a 4xx rejection
  (`Retry.RejectionIsRetried`).
- Nothing calls `processPaymentWebhook`. It is modelled as a separate
  operation.
- Callback result codes are compared with the string "0". A numeric `0`
  marks the row failed (`Mpesa.NumericZeroIsFailure`).

## Model

| member | source | states |
|---|---|---|
| Utils.FormatPhoneNumber | lib/utils.ts:41-53 | the result always starts with "254": a leading "0" is replaced, other numbers without "254" are prefixed, "254…" is unchanged |
| Utils.FormatIdempotent | lib/utils.ts:41-53 | formatting twice is formatting once |
| Utils.IsValidPhoneNumber | lib/utils.ts:37-39 | accepts exactly "07"/"01" plus 8 digits or "2547"/"2541" plus 8 digits |
| Utils.FormatKeepsValidity | lib/utils.ts:37-53 | a valid local number formats to a valid international number |
| Utils.DetectProvider | lib/utils.ts:17-27 | normalises like `formatPhoneNumber`, then gives safaricom for "2547…", airtel for "2541…", telkom otherwise |
| Utils.ValidNumbersAreNeverTelkom | lib/utils.ts:17-39 | a number `isValidPhoneNumber` accepts is never classed as telkom |
| Utils.GenerateReferralCode | lib/utils.ts:8-15 | eight characters, the i-th picked by the i-th draw from the alphabet, never I, O, 0 or 1 |
| Timestamps.CompactTimestamp | lib/mpesa.ts:55 | the timestamp as written has at most fourteen characters and none of them is '-', ':' or '.' |
| Timestamps.CompactTimestampKeepsT | lib/mpesa.ts:55 | the timestamp as written keeps the 'T', drops the last seconds digit and is not all digits |
| Timestamps.CompactTimestampExample | lib/mpesa-service.ts:42 | at 2024-01-15 10:30:45 the code as written gives "20240115T10304" and the intended timestamp is "20240115103045" |
| Timestamps.GatewayTimestamp | lib/mpesa.ts:55 | fourteen digits |
| Timestamps.GatewayTimestampIsLeadingDigits | lib/mpesa-service.ts:42 | the intended timestamp is the first fourteen digits of the ISO clock reading |
| Timestamps.ReferenceCodeShape | lib/mpesa.ts:55-64 | a reference as the engines build it is "DS", eight date digits, 'T', five more digits (hours, minutes, tens of seconds), then 1 to 3 digits that read back as the draw scaled to [0, 999] |
| Timestamps.CompactTimestampTenSeconds | lib/mpesa-service.ts:42-45 | two clock readings in the same ten seconds give the same timestamp as written, and so the same reference for the same draw |
| Timestamps.GatewayTimestampSeparatesSeconds | lib/mpesa.ts:55 | the corrected timestamp differs for any two readings that differ to the second |
| Common.FindFirst | lib/mpesa.ts:159-170 | the least index whose row matches the query, or none if no row matches |
| Common.Persist | lib/mpesa.ts:103-107 | a stored JSON object keeps exactly the keys whose values are not undefined, with their values |
| Common.Spread | lib/mpesa.ts:188-195 | `{...base, ...updates}` as stored: each defined update wins, an undefined update removes the key, and other keys keep their defined base values |
| Common.SpreadIdempotent | lib/mpesa.ts:188-195 | spreading the same updates twice is spreading them once |
| Common.ScaledDraw | lib/mpesa.ts:64 | `Math.floor(Math.random() * n)` is below n |
| Retry.FirstReturn | lib/mpesa.ts:16-27 | the least attempt in range that returns, or none when all throw |
| Retry.FirstReturnIsLeast | lib/mpesa.ts:16-27 | an attempt that returns after attempts that all threw is the one whose value is used |
| Retry.Outcome | lib/mpesa.ts:12-30 | the call resolves if and only if some allowed attempt returns, with the value of the first that does; otherwise it rejects with the last attempt's error |
| Retry.Calls | lib/mpesa.ts:16-27 | the number of invocations never exceeds `maxRetries` |
| Retry.Backoff | lib/mpesa.ts:22-25 | the i-th wait is `delay * 2^i` |
| Retry.MakeApiCall | lib/mpesa.ts:12-30 | returns the first returned value or rethrows the last error, calls `fn` once per attempt until the first success, and waits only between attempts |
| Retry.FirstSuccessWins | lib/mpesa.ts:16-21 | the first success is the result, and no call follows it |
| Retry.AllFailuresRethrowLast | lib/mpesa.ts:22-29 | when every attempt throws, `maxRetries` calls are made and the last error is rethrown |
| Retry.RejectionIsRetried | lib/mpesa.ts:18-26 | a 4xx rejection is retried like a network failure |
| Retry.FailTwiceThenSucceed | lib/mpesa.ts:12-30 | with the defaults: three calls, waits of 1000 then 2000, and the third result |
| PaymentStatus.StatusMessage | lib/mpesa.ts:274-285 | "completed", "pending" and "failed" each have their own message (if and only if), and none reads "Transaction not found" |
| Mpesa.TransactionTable.Create | lib/mpesa.ts:95-110 | the insert appends the row, or fails and leaves the table when the id or reference is taken |
| Mpesa.CreateKeepsKeysUnique | lib/mpesa.ts:95-110 | a successful insert keeps ids and references unique |
| Mpesa.PendingRow | lib/mpesa.ts:95-110 | the row is pending; its metadata holds the gateway reply, the timestamp and the checkout id exactly when the reply has one |
| Mpesa.PushResult | lib/mpesa.ts:127-132 | success if and only if `ResponseCode` is the string "0"; the id returned is the merchant reference |
| Mpesa.Initiate | lib/mpesa.ts:52-148 | a thrown initiation leaves the table and carries the prefix; a rejected call always throws; with both calls returned it succeeds if and only if no row has the request id or the reference; success appends one pending row whose reference is returned |
| Mpesa.InitiateSTKPush | lib/mpesa.ts:52-148 | obtains a token, pushes with retries, records the row with the as-written timestamp and reference, and returns the result or the prefixed error, as `Initiate` specifies |
| Mpesa.NoRowBeforeGatewayAnswers | lib/mpesa.ts:53-93 | a failed token or push call writes nothing and rethrows with the "Failed to initiate M-Pesa payment: " prefix |
| Mpesa.InitiationAppendsPendingRow | lib/mpesa.ts:55-132 | after both calls return, exactly one pending row keyed by the request id is appended; its reference is `DS` + the as-written timestamp + the draw, its metadata timestamp is the as-written one, and the reference is returned |
| Mpesa.CollisionWritesNothing | lib/mpesa.ts:95-110 | an insert whose request id or as-written reference is taken rethrows and leaves the table |
| Mpesa.SameTenSecondsCollide | lib/mpesa.ts:55-110 | a second payment with the same draw in the same ten seconds hits the first one's reference, rethrows and writes nothing |
| Mpesa.ItemValue | lib/mpesa.ts:181-186 | the value of the first item with that name, or undefined |
| Mpesa.CallbackEffect | lib/mpesa.ts:150-255 | the table keeps its length; each row keeps every field except status and metadata; an unreadable body or an unknown checkout id leaves the table |
| Mpesa.HandleCallback | lib/mpesa.ts:150-255 | the table becomes `CallbackEffect` of the old table, and no error escapes |
| Mpesa.UnknownCheckoutChangesNothing | lib/mpesa.ts:159-175 | a checkout id that matches no row leaves the table unchanged |
| Mpesa.CallbackTouchesOneRow | lib/mpesa.ts:159-236 | only the row the checkout id finds changes, and in it only status and metadata; id, reference, amount, phone, user, package and creation time stay |
| Mpesa.SuccessCompletes | lib/mpesa.ts:177-199 | result code "0" completes the row and merges receipt, amount, phone, date and the raw callback into the old metadata, keeping every other defined key |
| Mpesa.OtherCodesFail | lib/mpesa.ts:223-236 | any other result code fails the row, with the error text set to the result description |
| Mpesa.NumericZeroIsFailure | lib/mpesa.ts:177 | a numeric 0 result code takes the failure branch |
| Mpesa.CallbackKeepsLookup | lib/mpesa.ts:159-175 | a callback never changes which row a checkout id finds |
| Mpesa.LaterCallbackWins | lib/mpesa.ts:177-236 | a failure callback after a success callback leaves the row failed: no state is terminal |
| Mpesa.CallbackIdempotent | lib/mpesa.ts:150-255 | replaying a callback at the same instant changes nothing more |
| Mpesa.CallbackKeepsKeysUnique | lib/mpesa.ts:150-255 | callbacks keep ids and references unique |
| Mpesa.CheckTransactionStatus | lib/mpesa.ts:257-290 | "Transaction not found" if and only if no row has the reference; otherwise success if and only if completed, with the three-way message and the row's fields |
| Mpesa.StatusReportsTheRow | lib/mpesa.ts:261-285 | with unique references, the reply reports that row's status and message |
| Mpesa.CompletedCallbackIsReported | lib/mpesa.ts:177-285 | after a successful callback, the lookup of that reference reports success |
| MpesaService.SetStatus | lib/mpesa-service.ts:211-227 | the table keeps its length; the first row with that id gets the status and, when given, the replacement metadata with undefined values dropped; every other row is unchanged |
| MpesaService.MergeMetadata | lib/mpesa-service.ts:129-137 | the table keeps its length; the first row with that id gets `{...metadata, ...updates}` and keeps every other field; every other row is unchanged |
| MpesaService.UpdatesOfNewest | lib/mpesa-service.ts:64-168 | a metadata merge or a status update addressed to the id of the row just appended changes that row only |
| MpesaService.SetStatusChangesOneRow | lib/mpesa-service.ts:211-227 | with distinct ids, a status update changes exactly that row |
| MpesaService.TransactionTable.Create | lib/mpesa-service.ts:48-62 | appends the row under the next id, or refuses a taken transaction code |
| MpesaService.TransactionTable.UpdateTransactionStatus | lib/mpesa-service.ts:211-227 | the table becomes `SetStatus` of the old table |
| MpesaService.TransactionTable.MergeMetadataOf | lib/mpesa-service.ts:129-137 | the table becomes `MergeMetadata` of the old table |
| MpesaService.ValidatePhoneNumber | lib/mpesa-service.ts:230-232 | accepts "254", then 7 or 1, then eight digits |
| MpesaService.ValidateIsInternationalForm | lib/mpesa-service.ts:230-232 | the service pattern and the shared validator agree on international numbers |
| MpesaService.ValidNumbersPassService | lib/mpesa-service.ts:31-39 | every number the shared validator accepts passes the service check once formatted |
| MpesaService.ServiceAcceptsBareSubscriberNumber | lib/mpesa-service.ts:235-247 | "712345678" is refused by the shared validator but formats to a number the service accepts |
| MpesaService.PendingRow | lib/mpesa-service.ts:47-62 | a pending "mpesa" row with the request's user, package and amount, the code, the formatted phone, and metadata exactly `initiatedAt` and `requestId` |
| MpesaService.StageError | lib/mpesa-service.ts:84-87 | the replacement metadata is exactly `errorStage` and `errorDetails` |
| MpesaService.Initiate | lib/mpesa-service.ts:23-169 | one row is added exactly when the phone is valid and the as-written code is free; otherwise nothing changes and the call fails; a success returns that code and "STK push sent successfully" |
| MpesaService.Gateway | lib/mpesa-service.ts:64-168 | the table keeps its length and the next id moves on by one; success if and only if the token is ok and readable and the push reply is readable with `ResponseCode` "0", and then the code is returned |
| MpesaService.InitiateMpesaPayment | lib/mpesa-service.ts:23-169 | validates, inserts, calls the gateway and updates the row, ending as `Initiate` specifies; it never throws |
| MpesaService.FinalRow | lib/mpesa-service.ts:79-153 | only status and metadata change; a pending row ends failed if and only if the token or the push was refused |
| MpesaService.GatewayUpdatesNewest | lib/mpesa-service.ts:64-168 | after the insert, every update reaches the new row only, and the row ends as `FinalRow` says |
| MpesaService.InvalidPhoneRecordsNothing | lib/mpesa-service.ts:31-39 | an invalid phone is refused before anything is written |
| MpesaService.RowRecordedBeforeGateway | lib/mpesa-service.ts:42-62 | with a valid phone and a free as-written code, one pending row with that code exists before any gateway call, and it ends as `FinalRow` says |
| MpesaService.AuthFailureReplacesMetadata | lib/mpesa-service.ts:79-95 | a token response that is not ok fails the row, replaces its metadata with the auth error and returns the auth message |
| MpesaService.AcceptedPushStaysPending | lib/mpesa-service.ts:126-161 | an accepted push leaves the row pending, adds `stkResponse` to the kept metadata and returns the code |
| MpesaService.RejectedPushFails | lib/mpesa-service.ts:139-153 | a push with another response code fails the row at the "stk_push" stage and returns the code |
| MpesaService.ThrownAfterCreateLeavesRow | lib/mpesa-service.ts:162-168 | an error after the insert is returned as a failure and leaves the row pending |
| MpesaService.SuccessExactly | lib/mpesa-service.ts:23-169 | success if and only if the phone is valid, the as-written code is free, the token is ok and the push is accepted |
| MpesaService.SameTenSecondsRefused | lib/mpesa-service.ts:42-62 | after a recorded payment, a second one with the same draw in the same ten seconds fails before writing, with a unique-key error when its phone is valid |
| MpesaService.CheckTransactionStatus | lib/mpesa-service.ts:176-208 | "Transaction not found" if and only if no row has the code; otherwise the code is returned |
| MpesaService.StatusReportsTheRow | lib/mpesa-service.ts:176-200 | with unique codes, success if and only if completed, with the three-way message |
| MpesaService.AcceptedPushReadsPending | lib/mpesa-service.ts:155-200 | right after an accepted push, the lookup of the returned code says "still being processed" |
| Webhook.SignatureSeesOnlyEncoding | lib/webhook.ts:7-9 | payloads with the same JSON encoding have the same signature |
| Webhook.ByteLength | lib/webhook.ts:14 | the UTF-8 byte length of a string is between one and four times its length in characters |
| Webhook.VerifySignature | lib/webhook.ts:12-15 | a buffer-length mismatch throws; otherwise true if and only if the signature equals the expected one |
| Webhook.SignatureRoundTrip | lib/webhook.ts:7-15 | a generated signature verifies |
| Webhook.WrongSignatureRefused | lib/webhook.ts:12-15 | a different signature of the same byte length gives false |
| Webhook.SendWebhook | lib/webhook.ts:18-55 | signs the whole envelope, sends the signature in X-Signature with a 10 s timeout, and reports the status or the error without throwing |
| Webhook.DeliveredSignatureVerifies | lib/webhook.ts:20-33 | the receiver verifies the posted body with the posted signature |
| Webhook.Selected | lib/webhook.ts:75-82 | exactly the active subscriptions to "payment.completed"; with `SelectedAppend` and `SelectedSingle`, in table order and each once |
| Webhook.SelectedAppend | lib/webhook.ts:75-82 | the selection of two tables one after the other is the two selections one after the other |
| Webhook.SelectedSingle | lib/webhook.ts:75-82 | one subscription is selected once if it is active and wants the event, and otherwise not at all |
| Webhook.NoSubscriberNoDelivery | lib/webhook.ts:74-98 | when no subscription is active for "payment.completed", nothing is posted |
| Webhook.Deliveries | lib/webhook.ts:101-103 | one delivery per target, in order; the k-th posts the envelope of the k-th clock reading to the k-th target's url, signed with that target's secret |
| Webhook.ProcessPaymentWebhook | lib/webhook.ts:58-107 | an unknown id sends nothing; otherwise one delivery per selected subscriber, in order, carrying the transaction's data |
| Webhook.EachSubscriberNotifiedOnce | lib/webhook.ts:90-103 | the k-th delivery goes to the k-th selected subscriber with the payment data, whatever earlier deliveries gave |
| RateLimit.Count | lib/rate-limit.ts:13 | an absent token counts as zero |
| RateLimit.RateLimiter.Check | lib/rate-limit.ts:11-26 | accepts if and only if the count is below the limit; on acceptance it adds one and schedules the expiry; on rejection nothing changes |
| RateLimit.RateLimiter.Expire | lib/rate-limit.ts:21-23 | the oldest timer deletes its token's entry |
| RateLimit.StepKeepsScheduled | lib/rate-limit.ts:13-23 | every cached count stays covered by pending timers |
| RateLimit.ExpireKeepsScheduled | lib/rate-limit.ts:21-23 | firing a timer keeps the rest covered |
| RateLimit.NoTimerNoEntry | lib/rate-limit.ts:19-23 | with no timer pending, the cache is empty |
| RateLimit.StepTouchesOnlyToken | lib/rate-limit.ts:13-19 | a check changes no other token's count |
| RateLimit.StepCounts | lib/rate-limit.ts:15-19 | acceptance adds exactly one; rejection leaves the count |
| RateLimit.RunBoundsAdmissions | lib/rate-limit.ts:13-19 | between expiries a token is accepted at most `limit` minus its count, however checks interleave |
| RateLimit.BurstFillsBudget | lib/rate-limit.ts:13-19 | repeated checks of one token are accepted exactly until the budget runs out |
| RateLimit.FreshTokenAdmitted | lib/rate-limit.ts:1-26 | a new token is always accepted and grows the cache: `uniqueTokenPerInterval` is never enforced |
| RateLimit.ExpiryResets | lib/rate-limit.ts:21-23 | after expiry the token counts from zero, and other counts are unchanged |
| Middleware.GateOf | middleware.ts:27-46 | "/api/auth…" goes to the auth limiter and "/api/mpesa…" to the payment limiter |
| Middleware.Answer | middleware.ts:30-48 | a limiter rejection is 429 "Too Many Requests"; a pass carries the four security headers |
| Middleware.Middleware.Handle | middleware.ts:17-53 | paths outside `/api` are not handled; auth paths are charged to the auth limiter with limit 10 and payment paths to the payment limiter with limit 5, keyed by ip or "anonymous"; the other limiter is untouched |
| Middleware.Budgets | middleware.ts:6-46 | from an empty window, an address gets exactly 10 auth requests and 5 payment requests through |
| Middleware.SixthPaymentRefused | middleware.ts:41-45 | at count five the next payment request is 429 and the count stays |
| Auth.ValidateSession | lib/auth.ts:147-169 | a user id if and only if the session exists, is not revoked and has not expired, and then it is that session's `userId` |
| Auth.CurrentUser | lib/auth.ts:290-323 | nobody for an empty session id; a result is the public view of a user who owns a valid session; conversely a valid session with a non-empty owner gives that owner's public fields, or nobody if the owner is gone |
| Auth.AuthStore.CreateUser | lib/auth.ts:35-122 | the table and the referrals become `Register` of the old ones |
| Auth.AuthStore.CreateSession | lib/auth.ts:124-145 | appends a session expiring 24 h after now and returns its id; a taken id fails |
| Auth.AuthStore.AuthenticateUser | lib/auth.ts:171-288 | reply and user table are `Authenticate` of the old table |
| Auth.AuthStore.RevokeSession | lib/auth.ts:325-338 | true if and only if the session exists, and that session is marked revoked |
| Auth.Login | lib/auth.ts:199-256 | logged in if and only if the account is not locked and the password is right, with the public fields; only the counter and the lock change, and a locked record does not change |
| Auth.Register | lib/auth.ts:35-122 | fails with a unique violation, changing nothing, if and only if a unique column is taken; otherwise the new user is appended, other users change at most in balance, and at most one referral is recorded |
| Auth.UnknownIdentifierRefused | lib/auth.ts:179-196 | an identifier matching no email (with '@') or phone is refused with "Invalid credentials", and nothing changes |
| Auth.AuthenticateTouchesOneUser | lib/auth.ts:183-256 | only the user the identifier names changes |
| Auth.LockedIgnoresPassword | lib/auth.ts:199-212 | a locked account is refused whatever the password, and its record is unchanged |
| Auth.WrongPasswordCounts | lib/auth.ts:217-247 | a wrong password adds one and locks for 15 minutes if and only if the new count reaches 5 |
| Auth.RightPasswordResets | lib/auth.ts:249-276 | a right password clears the count and the lock and returns the public fields |
| Auth.RepeatedFailures | lib/auth.ts:199-247 | n failures raise the count to at most 5 (or by one past an old count), and the account is locked if and only if it reached 5 |
| Auth.LockedStays | lib/auth.ts:199-212 | failures against a locked account change nothing |
| Auth.ExpiredLockRelocksAtOnce | lib/auth.ts:219-235 | the count survives an expired lock, so the next failure locks again |
| Auth.LockLastsFifteenMinutes | lib/auth.ts:199-225 | a fresh lock holds for exactly fifteen minutes |
| Auth.NewSessionLastsADay | lib/auth.ts:124-169 | a new session validates to its owner before 24 h and not after |
| Auth.RevokedSessionInvalid | lib/auth.ts:325-338 | a revoked session never validates |
| Auth.ReferralCreditsReferrer | lib/auth.ts:73-97 | a code of an existing user credits that user with 20 and records one referral; no one else's balance moves |
| Auth.UnknownReferralIgnored | lib/auth.ts:73-78 | a code nobody holds is ignored |
| Auth.ConflictChangesNothing | lib/auth.ts:59-121 | a taken id, email, phone or code rolls the whole registration back |
| Auth.RegisterKeepsUnique | lib/auth.ts:59-109 | registration keeps the unique columns unique |
| Auth.AuthenticateKeepsUnique | lib/auth.ts:229-256 | logins keep the unique columns unique |
| AuthService.ValidateSession | lib/auth-service.ts:76-88 | an owner id if and only if the session exists, is not revoked and has not expired, and then it is that session's `userId` |
| AuthService.CurrentUser | lib/auth-service.ts:165-196 | nobody without a cookie value or for owner id 0; a result belongs to a valid session; conversely a valid cookie with a non-zero owner gives that owner's fields, or nobody if the owner is gone |
| AuthService.AuthServiceStore.CreateSession | lib/auth-service.ts:59-73 | appends a session expiring one hour after now |
| AuthService.AuthServiceStore.AuthenticateUser | lib/auth-service.ts:91-162 | reply and user table are `Authenticate` of the old table |
| AuthService.Login | lib/auth-service.ts:108-149 | logged in if and only if not locked and the password is right; success keeps the lock deadline; only counter, failure stamp and lock change |
| AuthService.UnknownIdentifierRefused | lib/auth-service.ts:97-106 | an unknown identifier is refused with "Invalid credentials", and nothing changes |
| AuthService.LockedIgnoresPassword | lib/auth-service.ts:109-114 | a locked account is refused before the password check |
| AuthService.WrongPasswordCounts | lib/auth-service.ts:119-140 | a wrong password adds one, stamps the time, and locks if and only if the count reaches 5 |
| AuthService.StaleLockIsHarmless | lib/auth-service.ts:143-149 | success keeps the old lock deadline, but it is already past; the next failure counts from one and clears it |
| AuthService.NewSessionLastsAnHour | lib/auth-service.ts:59-88 | a new session validates before one hour and not after |
| Routes.PaymentSchema | app/api/mpesa/payment/route.ts:10-16 | accepts exactly a body with a valid phone, a positive numeric amount and an absent or string package id, and returns those values |
| Routes.PaymentRoute | app/api/mpesa/payment/route.ts:18-70 | replies 200, 400, 401 or 500; 401 exactly when the session is missing, empty or names nobody; 200 only for a body the schema accepts; every non-200 reply has `success: false` |
| Routes.PaymentAuthenticatesFirst | app/api/mpesa/payment/route.ts:20-33 | without a valid session the reply is the same 401, whatever the body and the collaborators |
| Routes.PaymentValidates | app/api/mpesa/payment/route.ts:35-43 | a body the schema refuses gets 400 "Validation failed" |
| Routes.PaymentWithoutPackageSkipsLookup | app/api/mpesa/payment/route.ts:46-61 | without a package id, the reply does not depend on the package table |
| Routes.PaymentUnknownPackage | app/api/mpesa/payment/route.ts:46-54 | an unknown package id gets 400 and the engine is not called |
| Routes.PaymentPassesResultThrough | app/api/mpesa/payment/route.ts:63-69 | the engine's result is returned with 200, even a failed one; a thrown error is a 500 |
| Routes.StkSchema | app/api/mpesa/stk-push/route.ts:8-12 | accepts exactly a body with a string phone number, a positive amount and a positive numeric package id, and returns those values |
| Routes.StkPushRoute | app/api/mpesa/stk-push/route.ts:14-90 | replies 200, 400, 401 or 500; 401 exactly when there is no current user; 200 only for a valid body naming an existing package; `success` is true exactly on 200 |
| Routes.StkPushAuthenticatesFirst | app/api/mpesa/stk-push/route.ts:17-27 | without a current user the reply is 401 "Unauthorized", whatever the body |
| Routes.StkPushNeedsPackage | app/api/mpesa/stk-push/route.ts:8-42 | a body without a numeric package id fails validation |
| Routes.StkPushMapsOutcome | app/api/mpesa/stk-push/route.ts:61-79 | a failed payment is a 500 with the engine's message or the fallback; a successful one is a 200 with the code |
| Routes.StatusRoute | app/api/mpesa/status/route.ts:11-39 | replies 200, 401 or 500; 401 exactly when the session is missing, empty or names nobody; 200 exactly when the caller is known, the id is a non-empty string and the lookup does not throw |
| Routes.StatusEmptyIdIsServerError | app/api/mpesa/status/route.ts:26-38 | an empty or missing id gives 500, not 400 |
| Routes.StatusReportsLookup | app/api/mpesa/status/route.ts:29-31 | against the table, the reply is the engine's verdict with 200, "Transaction not found" included |
| Routes.QueryStatusRoute | app/api/mpesa/query-status/route.ts:11-61 | replies 200, 400, 401 or 500; 401 exactly when there is no current user; 200 exactly when there is one and the id is a non-empty string |
| Routes.QueryEmptyIdIsClientError | app/api/mpesa/query-status/route.ts:29-39 | an empty or missing id gives 400 "Validation failed" |
| Routes.QueryProjectsThreeFields | app/api/mpesa/query-status/route.ts:44-50 | the reply holds only success, message and transactionId (the id only when found), as the engine reports them |
| Routes.CallbackRoute | app/api/mpesa/callback/route.ts:4-14 | always acknowledges with `{success: true}` and 200; a readable body is applied as `handleCallback` specifies |

## Left out

- I/O and logging. This covers winston, `console`, `logAuthEvent` and `logPaymentEvent`.
- The network transport. axios and `fetch` are outcome values. The 10 s
  webhook timeout is only a field of the request.
- The sleeps of `makeApiCall`. The model records them as a list of delays.
- HMAC-SHA256, `JSON.stringify`, bcrypt and JWT are uninterpreted function
  parameters. Base64 (RFC 4648) of the gateway password and of the Basic
  credentials is left out, because it only feeds the request headers.
- `uuid` and `Math.random` values are inputs.
- `getAccessToken` (lib/mpesa.ts:32-50) is modelled only through how its call
  settles.
- Floating point. Amounts are integers, and the `Math.round(amount)` of the
  push body is not modelled. The referral credit of 20.0 is the integer 20.
- Database errors other than unique-key violations (connection loss, timeouts).
  The route-level `catch` blocks are modelled as the handling of an `Err` outcome.
- Prisma query semantics. `findUnique`/`findFirst` are a least-index search
  over the table in insertion order. A callback without a checkout id matches
  no row.
- Mpesa.HandleCallback: the model takes one clock reading per callback.
- MpesaService.InitiateMpesaPayment: the source reads the clock twice, for
  the timestamp and for `initiatedAt`. The model takes a single reading.
- Auth.AuthStore.AuthenticateUser and AuthService.AuthServiceStore.AuthenticateUser:
  the lock check and the lock deadline use one clock reading.
- Auth.AuthStore.CreateSession: `setHours(+24)` is modelled as exactly 24 h
  of milliseconds, so daylight-saving shifts are not modelled.
- Auth.AuthStore.AuthenticateUser: the lock message's `toLocaleTimeString`
  rendering is a function parameter.
- Mpesa.TransactionTable.Create: the id and the `reference` of a transaction
  are assumed to be unique keys. The database schema is not part of this
  model, and `lib/mpesa.ts:261` looks rows up with `findFirst`. Without a
  unique reference, a collision would insert a second row, and the status
  lookup would report the older one.
- MpesaService.TransactionTable.Create: `transactionCode` is assumed unique,
  as its `findUnique` lookup at lib/mpesa-service.ts:179 implies.
- Webhook.SendWebhook: the envelope is a map, so the key order of
  `{event, data, timestamp}` is not modelled. `JSON.stringify`, and so the
  signature, depend on that order. The encoder is a parameter.
- The user table's unique columns (id, email, phone, referral code) are
  assumed from the `findUnique` queries. The database schema is not part of
  this model. So `Auth.NewUser` also assumes the column defaults of a new
  user: not verified, balance 0, no failed logins and no lock.
- `createdAt` of a row in `lib/mpesa.ts` is the insert time. The model takes it
  as the same clock reading as the timestamp.
- Clock readings are ISO-8601 strings of years 0 to 9999, the range in which
  `toISOString` has the 24-character form.
- `queryMpesaTransactionStatus` (lib/mpesa.ts:293-333) is not used by any
  modelled endpoint.
- `hashPassword`, `generateToken` and `verifyToken` (lib/auth.ts:13-33,
  lib/auth-service.ts:24-56) only wrap bcrypt and JWT.
- Concurrency between overlapping requests on the event loop. Every operation
  is atomic in the model.
- The React pages, including the client-side polling of the status endpoint.
- Validation error details: the `errors` list of zod issues in a 400 reply is
  left out of the reply body.
- Middleware.Middleware.Handle: the path matcher is modelled as "/api" or
  "/api/…".

## Findings

| source | as written | input that shows it | evidently intended | confidence | as-written member | corrected member |
|---|---|---|---|---|---|---|
| lib/mpesa.ts:55 and lib/mpesa-service.ts:42 | the timestamp strips '-', ':' and '.' from the ISO string and keeps 14 characters, so the 'T' stays and the last digit of the seconds is lost ("YYYYMMDDTHHmms") | a clock at 2024-01-15T10:30:45.123Z gives "20240115T10304"; readings at :41 and :45 give the same reference for the same draw (Mpesa.SameTenSecondsCollide) | the gateway's YYYYMMDDHHmmss timestamp, "20240115103045" | high; not executed | Timestamps.CompactTimestamp (shown by Timestamps.CompactTimestampKeepsT and Timestamps.CompactTimestampExample) | Timestamps.GatewayTimestamp (proved by Timestamps.GatewayTimestampIsLeadingDigits and Timestamps.GatewayTimestampSeparatesSeconds) |
