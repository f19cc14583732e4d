/** `makeApiCall`: the bounded retry loop with exponential backoff that wraps
    every gateway call of the string-keyed payment engine.

    The wrapped call is an input: `fn(k)` is what the (k+1)-th invocation
    does, return a value or throw.  The sleeps become the list of delays the
    loop asks for.  Every thrown error is retried alike, whatever its kind. */
module Retry {
  import opened Common

  /** What a gateway call can throw: an HTTP error status (axios throws for
      any status outside 2xx) or a transport failure. */
  datatype ApiError = HttpError(status: nat, message: string) | NetworkError(message: string)

  /** One invocation of the wrapped call. */
  datatype Attempt<T> = Returned(value: T) | Threw(error: ApiError)

  /** How the promise returned by `makeApiCall` settles.  `Rejected(None)` is
      `throw undefined`, what happens when no attempt is allowed at all. */
  datatype Settled<T> = Resolved(value: T) | Rejected(error: Option<ApiError>)

  const DefaultMaxRetries: int := 3
  const DefaultDelay: int := 1000

  /** Number of attempts `for (attempt = 1; attempt <= maxRetries; …)` allows. */
  function AttemptLimit(maxRetries: int): nat {
    if maxRetries < 0 then 0 else maxRetries
  }

  /** The first attempt in [from, n) that returns, if any. */
  function FirstReturn<T>(fn: nat -> Attempt<T>, from: nat, n: nat): (k: Option<nat>)
    ensures k.Some? ==> from <= k.value < n && fn(k.value).Returned?
    ensures k.Some? ==> forall j :: from <= j < k.value ==> fn(j).Threw?
    ensures k.None? ==> forall j :: from <= j < n ==> fn(j).Threw?
    decreases n - from
  {
    if from >= n then None
    else if fn(from).Returned? then Some(from)
    else FirstReturn(fn, from + 1, n)
  }

  /** How many times `fn` is invoked. */
  function Calls<T>(fn: nat -> Attempt<T>, maxRetries: int): (c: nat)
    ensures c <= AttemptLimit(maxRetries)
  {
    match FirstReturn(fn, 0, AttemptLimit(maxRetries))
    case Some(k) => k + 1
    case None => AttemptLimit(maxRetries)
  }

  /** How the call settles: the first returned value, or the last error. */
  function Outcome<T>(fn: nat -> Attempt<T>, maxRetries: int): (r: Settled<T>)
    ensures r.Resolved? <==> exists k :: 0 <= k < AttemptLimit(maxRetries) && fn(k).Returned?
    ensures r.Resolved? ==> exists k :: 0 <= k < AttemptLimit(maxRetries) && fn(k) == Returned(r.value)
                                        && forall j :: 0 <= j < k ==> fn(j).Threw?
    ensures r.Rejected? && AttemptLimit(maxRetries) > 0 ==>
      r.error == Some(fn(AttemptLimit(maxRetries) - 1).error)
  {
    var n := AttemptLimit(maxRetries);
    match FirstReturn(fn, 0, n)
    case Some(k) => Resolved(fn(k).value)
    case None => if n == 0 then Rejected(None) else Rejected(Some(fn(n - 1).error))
  }

  /** The delays `delay * 2^(attempt-1)` for attempts 1 to n. */
  function Backoff(delay: int, n: nat): (waits: seq<int>)
    ensures |waits| == n
    ensures forall j :: 0 <= j < n ==> waits[j] == delay * Pow2(j)
  {
    if n == 0 then [] else Backoff(delay, n - 1) + [delay * Pow2(n - 1)]
  }

  /** Invokes `fn` until it returns, at most `maxRetries` times, sleeping
      `delay * 2^(attempt-1)` after each failed attempt but the last. */
  method MakeApiCall<T>(fn: nat -> Attempt<T>, maxRetries: int, delay: int)
    returns (r: Settled<T>, calls: nat, waits: seq<int>)
    ensures r == Outcome(fn, maxRetries)
    ensures calls == Calls(fn, maxRetries)
    ensures waits == Backoff(delay, if calls == 0 then 0 else calls - 1)
  {
    var lastError: Option<ApiError> := None;
    calls, waits := 0, [];
    var attempt := 1;
    while attempt <= maxRetries
      invariant 1 <= attempt && attempt - 1 <= AttemptLimit(maxRetries)
      invariant calls == attempt - 1
      invariant forall j :: 0 <= j < attempt - 1 ==> fn(j).Threw?
      invariant lastError == if attempt == 1 then None else Some(fn(attempt - 2).error)
      invariant waits == Backoff(delay, if attempt == 1 || attempt - 1 < maxRetries then attempt - 1 else attempt - 2)
      decreases maxRetries - attempt
    {
      var a := fn(attempt - 1);
      calls := calls + 1;
      if a.Returned? {
        r := Resolved(a.value);
        assert FirstReturn(fn, 0, AttemptLimit(maxRetries)) == Some(attempt - 1) by {
          FirstReturnIsLeast(fn, 0, AttemptLimit(maxRetries), attempt - 1);
        }
        return;
      }
      lastError := Some(a.error);
      if attempt < maxRetries {
        waits := waits + [delay * Pow2(attempt - 1)];
      }
      attempt := attempt + 1;
    }
    r := Rejected(lastError);
    assert FirstReturn(fn, 0, AttemptLimit(maxRetries)).None?;
  }

  /** An attempt that returns after only failures is the one `FirstReturn`
      finds. */
  lemma {:induction false} FirstReturnIsLeast<T>(fn: nat -> Attempt<T>, from: nat, n: nat, k: nat)
    requires from <= k < n && fn(k).Returned?
    requires forall j :: from <= j < k ==> fn(j).Threw?
    ensures FirstReturn(fn, from, n) == Some(k)
    decreases k - from
  {
    if from < k {
      FirstReturnIsLeast(fn, from + 1, n, k);
    }
  }

  /** The first success ends the loop: its value is the result and no
      further call is made. */
  lemma FirstSuccessWins<T>(fn: nat -> Attempt<T>, maxRetries: int, k: nat)
    requires k < AttemptLimit(maxRetries) && fn(k).Returned?
    requires forall j :: 0 <= j < k ==> fn(j).Threw?
    ensures Outcome(fn, maxRetries) == Resolved(fn(k).value)
    ensures Calls(fn, maxRetries) == k + 1
  {
    FirstReturnIsLeast(fn, 0, AttemptLimit(maxRetries), k);
  }

  /** When every allowed attempt throws, the last error is rethrown after
      exactly `maxRetries` calls. */
  lemma AllFailuresRethrowLast<T>(fn: nat -> Attempt<T>, maxRetries: int)
    requires maxRetries >= 1
    requires forall j :: 0 <= j < maxRetries ==> fn(j).Threw?
    ensures Outcome(fn, maxRetries) == Rejected(Some(fn(maxRetries - 1).error))
    ensures Calls(fn, maxRetries) == maxRetries
  {
  }

  /** Errors are not told apart: an explicit HTTP rejection from the gateway
      is retried like a network failure, so a call that fails only once
      with a 4xx still returns. */
  lemma RejectionIsRetried<T>(fn: nat -> Attempt<T>, maxRetries: int, status: nat, msg: string)
    requires maxRetries >= 2 && 400 <= status < 500
    requires fn(0) == Threw(HttpError(status, msg)) && fn(1).Returned?
    ensures Outcome(fn, maxRetries) == Resolved(fn(1).value)
    ensures Calls(fn, maxRetries) == 2
  {
    FirstSuccessWins(fn, maxRetries, 1);
  }

  /** With the defaults, a call that fails twice then succeeds is invoked
      three times, waits 1000 then 2000, and returns the third result. */
  lemma FailTwiceThenSucceed<T>(fn: nat -> Attempt<T>)
    requires fn(0).Threw? && fn(1).Threw? && fn(2).Returned?
    ensures Outcome(fn, DefaultMaxRetries) == Resolved(fn(2).value)
    ensures Calls(fn, DefaultMaxRetries) == 3
    ensures Backoff(DefaultDelay, Calls(fn, DefaultMaxRetries) - 1) == [1000, 2000]
  {
    FirstSuccessWins(fn, DefaultMaxRetries, 2);
    var b := Backoff(DefaultDelay, 2);
    assert b[0] == 1000 && b[1] == 2000;
  }
}
