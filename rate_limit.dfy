/** `rateLimit`: a per-token request counter over one fixed interval.

    Each accepted check bumps the token's count and schedules a timer that,
    `interval` milliseconds later, deletes the token's entry outright.  All
    timers of one limiter share the same interval, so they fire in the order
    they were scheduled: the pending timers are a queue, and firing the
    oldest is the explicit operation `Expire`. */
module RateLimit {

  /** `tokenCache.get(token) || 0`: an absent token counts as zero. */
  function Count(cache: map<string, nat>, token: string): (c: nat)
    ensures token !in cache ==> c == 0
  {
    if token in cache then cache[token] else 0
  }

  /** The check lets the request through iff the count is below the limit. */
  predicate Admits(cache: map<string, nat>, limit: int, token: string) {
    Count(cache, token) < limit
  }

  /** The cache after one check: the count goes up by one on acceptance and
      nothing changes on rejection. */
  function Step(cache: map<string, nat>, limit: int, token: string): map<string, nat> {
    if Admits(cache, limit, token) then cache[token := Count(cache, token) + 1] else cache
  }

  /** The cache after the timer scheduled for `token` fires. */
  function Expired(cache: map<string, nat>, token: string): map<string, nat> {
    cache - {token}
  }

  /** Every cached count is positive and covered by as many pending timers:
      each entry will be deleted by a timer that is still to fire. */
  predicate Scheduled(cache: map<string, nat>, timers: seq<string>) {
    forall t :: t in cache ==> 1 <= cache[t] <= multiset(timers)[t]
  }

  class RateLimiter {
    const interval: nat
    /** Accepted by the constructor and never read. */
    const uniqueTokenPerInterval: nat
    var tokenCache: map<string, nat>
    /** Tokens whose deletion timer is pending, oldest first. */
    var timers: seq<string>

    predicate Valid()
      reads this
    {
      Scheduled(tokenCache, timers)
    }

    constructor(interval: nat, uniqueTokenPerInterval: nat)
      ensures this.interval == interval
      ensures this.uniqueTokenPerInterval == uniqueTokenPerInterval
      ensures tokenCache == map[] && timers == []
      ensures Valid()
    {
      this.interval := interval;
      this.uniqueTokenPerInterval := uniqueTokenPerInterval;
      tokenCache := map[];
      timers := [];
    }

    /** `check(res, limit, token)`: resolves (true) or rejects (false). */
    method Check(limit: int, token: string) returns (accepted: bool)
      requires Valid()
      modifies this
      ensures Valid()
      ensures accepted == Admits(old(tokenCache), limit, token)
      ensures tokenCache == Step(old(tokenCache), limit, token)
      ensures timers == if accepted then old(timers) + [token] else old(timers)
    {
      var tokenCount := if token in tokenCache then tokenCache[token] else 0;
      if tokenCount >= limit {
        return false;
      }
      StepKeepsScheduled(tokenCache, timers, limit, token);
      tokenCache := tokenCache[token := tokenCount + 1];
      timers := timers + [token];
      return true;
    }

    /** The oldest pending timer fires and deletes its token's entry. */
    method Expire()
      requires Valid()
      modifies this
      ensures Valid()
      ensures old(timers) == [] ==> tokenCache == old(tokenCache) && timers == []
      ensures old(timers) != [] ==>
        tokenCache == Expired(old(tokenCache), old(timers)[0]) && timers == old(timers)[1..]
    {
      if timers != [] {
        ExpireKeepsScheduled(tokenCache, timers);
        tokenCache := tokenCache - {timers[0]};
        timers := timers[1..];
      }
    }
  }

  /** A check keeps every entry covered by its timers. */
  lemma StepKeepsScheduled(cache: map<string, nat>, timers: seq<string>, limit: int, token: string)
    requires Scheduled(cache, timers)
    ensures Admits(cache, limit, token) ==> Scheduled(Step(cache, limit, token), timers + [token])
    ensures !Admits(cache, limit, token) ==> Step(cache, limit, token) == cache
  {
    if Admits(cache, limit, token) {
      var next := Step(cache, limit, token);
      forall t | t in next
        ensures 1 <= next[t] <= multiset(timers + [token])[t]
      {
        assert multiset(timers + [token]) == multiset(timers) + multiset{token};
      }
    }
  }

  /** Firing the oldest timer keeps every remaining entry covered. */
  lemma ExpireKeepsScheduled(cache: map<string, nat>, timers: seq<string>)
    requires Scheduled(cache, timers) && timers != []
    ensures Scheduled(Expired(cache, timers[0]), timers[1..])
  {
    assert timers == [timers[0]] + timers[1..];
    assert multiset(timers) == multiset{timers[0]} + multiset(timers[1..]);
  }

  /** With no pending timer the cache is empty: nothing outlives its timer. */
  lemma NoTimerNoEntry(cache: map<string, nat>)
    requires Scheduled(cache, [])
    ensures cache == map[]
  {
  }

  /** A check changes no other token's count. */
  lemma StepTouchesOnlyToken(cache: map<string, nat>, limit: int, token: string, other: string)
    requires other != token
    ensures Count(Step(cache, limit, token), other) == Count(cache, other)
  {
  }

  /** An accepted check adds exactly one; a rejected one leaves the count. */
  lemma StepCounts(cache: map<string, nat>, limit: int, token: string)
    ensures Admits(cache, limit, token) ==> Count(Step(cache, limit, token), token) == Count(cache, token) + 1
    ensures !Admits(cache, limit, token) ==> Count(Step(cache, limit, token), token) == Count(cache, token)
  {
  }

  /** The cache after checking `tokens` one after the other, no timer firing. */
  function Run(cache: map<string, nat>, limit: int, tokens: seq<string>): map<string, nat>
    decreases |tokens|
  {
    if tokens == [] then cache else Run(Step(cache, limit, tokens[0]), limit, tokens[1..])
  }

  /** How many of those checks were for `t` and accepted. */
  function AdmittedFor(cache: map<string, nat>, limit: int, tokens: seq<string>, t: string): nat
    decreases |tokens|
  {
    if tokens == [] then 0
    else
      var here := if tokens[0] == t && Admits(cache, limit, t) then 1 else 0;
      here + AdmittedFor(Step(cache, limit, tokens[0]), limit, tokens[1..], t)
  }

  /** Between expiries a token gets at most `limit` minus what it has already
      used, however the checks of other tokens interleave. */
  lemma {:induction false} RunBoundsAdmissions(cache: map<string, nat>, limit: int, tokens: seq<string>, t: string)
    ensures Count(Run(cache, limit, tokens), t) == Count(cache, t) + AdmittedFor(cache, limit, tokens, t)
    ensures AdmittedFor(cache, limit, tokens, t) <= if limit > Count(cache, t) then limit - Count(cache, t) else 0
    decreases |tokens|
  {
    if tokens != [] {
      RunBoundsAdmissions(Step(cache, limit, tokens[0]), limit, tokens[1..], t);
    }
  }

  /** Checks of one token alone are accepted until the budget runs out. */
  lemma {:induction false} BurstFillsBudget(cache: map<string, nat>, limit: int, tokens: seq<string>, t: string)
    requires forall i :: 0 <= i < |tokens| ==> tokens[i] == t
    ensures var budget := if limit > Count(cache, t) then limit - Count(cache, t) else 0;
      AdmittedFor(cache, limit, tokens, t) == if |tokens| < budget then |tokens| else budget
    decreases |tokens|
  {
    if tokens != [] {
      BurstFillsBudget(Step(cache, limit, t), limit, tokens[1..], t);
    }
  }

  /** The limiter never refuses a new token for lack of room: the number of
      distinct tokens grows without bound whatever `uniqueTokenPerInterval` is. */
  lemma FreshTokenAdmitted(cache: map<string, nat>, limit: int, token: string)
    requires limit >= 1 && token !in cache
    ensures Admits(cache, limit, token)
    ensures |Step(cache, limit, token).Keys| == |cache.Keys| + 1
  {
    assert Step(cache, limit, token).Keys == cache.Keys + {token};
  }

  /** After its entry expires a token counts from zero again. */
  lemma ExpiryResets(cache: map<string, nat>, token: string, limit: int)
    requires limit >= 1
    ensures Count(Expired(cache, token), token) == 0
    ensures Admits(Expired(cache, token), limit, token)
    ensures forall t :: t != token ==> Count(Expired(cache, token), t) == Count(cache, t)
  {
  }
}
