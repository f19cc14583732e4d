/** The request middleware: security headers on every API response, and two
    separate per-address rate limiters, one for the authentication endpoints
    and one for the payment endpoints. */
module Middleware {
  import opened Common
  import RateLimit

  const Minute: nat := 60000
  const AuthUniqueTokens: nat := 500
  const PaymentUniqueTokens: nat := 100
  const AuthPrefix := "/api/auth"
  const PaymentPrefix := "/api/mpesa"
  const AuthLimit: int := 10
  const PaymentLimit: int := 5
  const AnonymousKey := "anonymous"
  const TooManyRequestsStatus: nat := 429
  const TooManyRequestsBody := "Too Many Requests"

  /** The four headers set on the passing response. */
  const SecurityHeaders: map<string, string> := map[
    "X-Content-Type-Options" := "nosniff",
    "X-Frame-Options" := "DENY",
    "X-XSS-Protection" := "1; mode=block",
    "Referrer-Policy" := "strict-origin-when-cross-origin"]

  /** What the middleware does with a request.  `Bypassed`: the path is
      outside the matcher and the middleware is not invoked at all. */
  datatype Reply =
    | Passed(headers: map<string, string>)
    | Refused(status: nat, body: string)
    | Bypassed

  /** The matcher `/api/:path*`: "/api" itself or any path below it. */
  predicate Matches(path: string) {
    path == "/api" || StartsWith(path, "/api/")
  }

  /** Which limiter a matched path is charged to. */
  datatype Gate = NoGate | AuthGate | PaymentGate

  function GateOf(path: string): (g: Gate)
    ensures g == AuthGate <==> StartsWith(path, AuthPrefix)
    ensures g == PaymentGate <==> StartsWith(path, PaymentPrefix)
  {
    if StartsWith(path, AuthPrefix) then
      assert path[5] == 'a';
      AuthGate
    else if StartsWith(path, PaymentPrefix) then PaymentGate
    else NoGate
  }

  /** `request.ip ?? "anonymous"`: every request without an address is
      charged to one shared key. */
  function KeyOf(ip: Option<string>): string {
    match ip
    case Some(a) => a
    case None => AnonymousKey
  }

  /** The reply of a matched request once its limiter, if any, has answered. */
  function Answer(admitted: bool): (r: Reply)
    ensures r.Passed? <==> admitted
    ensures r.Passed? ==> r.headers == SecurityHeaders
    ensures r.Refused? ==> r.status == TooManyRequestsStatus && r.body == TooManyRequestsBody
  {
    if admitted then Passed(SecurityHeaders) else Refused(TooManyRequestsStatus, TooManyRequestsBody)
  }

  class Middleware {
    const authLimiter: RateLimit.RateLimiter
    const paymentLimiter: RateLimit.RateLimiter

    predicate Valid()
      reads this, authLimiter, paymentLimiter
    {
      authLimiter != paymentLimiter && authLimiter.Valid() && paymentLimiter.Valid()
    }

    constructor()
      ensures Valid()
      ensures fresh(authLimiter) && fresh(paymentLimiter)
      ensures authLimiter.interval == Minute && authLimiter.uniqueTokenPerInterval == AuthUniqueTokens
      ensures paymentLimiter.interval == Minute && paymentLimiter.uniqueTokenPerInterval == PaymentUniqueTokens
      ensures authLimiter.tokenCache == map[] && paymentLimiter.tokenCache == map[]
    {
      authLimiter := new RateLimit.RateLimiter(Minute, AuthUniqueTokens);
      paymentLimiter := new RateLimit.RateLimiter(Minute, PaymentUniqueTokens);
    }

    /** Runs the middleware on a request for `path` from address `ip`. */
    method Handle(path: string, ip: Option<string>) returns (r: Reply)
      requires Valid()
      modifies authLimiter, paymentLimiter
      ensures Valid()
      ensures !Matches(path) ==> r == Bypassed
      ensures !Matches(path) || GateOf(path) == NoGate ==>
        unchanged(authLimiter, paymentLimiter)
      ensures Matches(path) && GateOf(path) == NoGate ==> r == Passed(SecurityHeaders)
      ensures Matches(path) && GateOf(path) == AuthGate ==>
        && r == Answer(RateLimit.Admits(old(authLimiter.tokenCache), AuthLimit, KeyOf(ip)))
        && authLimiter.tokenCache == RateLimit.Step(old(authLimiter.tokenCache), AuthLimit, KeyOf(ip))
        && authLimiter.timers == (if r.Passed? then old(authLimiter.timers) + [KeyOf(ip)] else old(authLimiter.timers))
        && unchanged(paymentLimiter)
      ensures Matches(path) && GateOf(path) == PaymentGate ==>
        && r == Answer(RateLimit.Admits(old(paymentLimiter.tokenCache), PaymentLimit, KeyOf(ip)))
        && paymentLimiter.tokenCache == RateLimit.Step(old(paymentLimiter.tokenCache), PaymentLimit, KeyOf(ip))
        && paymentLimiter.timers == (if r.Passed? then old(paymentLimiter.timers) + [KeyOf(ip)] else old(paymentLimiter.timers))
        && unchanged(authLimiter)
    {
      if !Matches(path) {
        return Bypassed;
      }
      var headers: map<string, string> := map[];
      headers := headers["X-Content-Type-Options" := "nosniff"];
      headers := headers["X-Frame-Options" := "DENY"];
      headers := headers["X-XSS-Protection" := "1; mode=block"];
      headers := headers["Referrer-Policy" := "strict-origin-when-cross-origin"];
      assert headers == SecurityHeaders;
      if StartsWith(path, AuthPrefix) {
        var ok := authLimiter.Check(AuthLimit, KeyOf(ip));
        if !ok {
          return Refused(TooManyRequestsStatus, TooManyRequestsBody);
        }
      }
      if StartsWith(path, PaymentPrefix) {
        var ok := paymentLimiter.Check(PaymentLimit, KeyOf(ip));
        if !ok {
          return Refused(TooManyRequestsStatus, TooManyRequestsBody);
        }
      }
      return Passed(headers);
    }
  }

  /** From an empty window, an address gets exactly ten authentication
      requests and five payment requests through per interval, and the two
      budgets are independent: the limiters' caches are separate. */
  lemma {:induction false} Budgets(authBurst: seq<string>, payBurst: seq<string>, key: string)
    requires forall i :: 0 <= i < |authBurst| ==> authBurst[i] == key
    requires forall i :: 0 <= i < |payBurst| ==> payBurst[i] == key
    ensures RateLimit.AdmittedFor(map[], AuthLimit, authBurst, key)
         == if |authBurst| < 10 then |authBurst| else 10
    ensures RateLimit.AdmittedFor(map[], PaymentLimit, payBurst, key)
         == if |payBurst| < 5 then |payBurst| else 5
  {
    RateLimit.BurstFillsBudget(map[], AuthLimit, authBurst, key);
    RateLimit.BurstFillsBudget(map[], PaymentLimit, payBurst, key);
  }

  /** Once an address has used its five payment requests, the next one is
      refused with 429 and leaves the count where it is. */
  lemma SixthPaymentRefused(payCache: map<string, nat>, key: string)
    requires RateLimit.Count(payCache, key) == 5
    ensures Answer(RateLimit.Admits(payCache, PaymentLimit, key)) == Refused(429, "Too Many Requests")
    ensures RateLimit.Step(payCache, PaymentLimit, key) == payCache
  {
  }
}
