/**
 When a failed activity is retried and after how long. The interval that comes out of the
 floating point formula is a parameter: what is stated holds for every value of it.
 */
module Retries {
  import opened Common

  const NO_RETRY := -1

  datatype Policy = Policy(
    maximumInterval: int,
    expirationInterval: int,
    maximumAttempts: int,
    nonRetriableErrorReasons: seq<string>)

  /** A failed attempt: the interval computed for it, why it failed, and when. */
  datatype Failure = Failure(computed: int, reason: string, now: int)

  /** An overflowed interval is replaced by the maximum, if there is one, and a long one is cut to it. */
  function Interval(p: Policy, computed: int): int {
    if computed <= 0 then (if p.maximumInterval > 0 then p.maximumInterval else NO_RETRY)
    else if p.maximumInterval > 0 && computed > p.maximumInterval then p.maximumInterval
    else computed
  }

  function Backoff(p: Policy, attempt: int, f: Failure, expireTime: Option<int>): int {
    var interval := Interval(p, f.computed);
    if p.maximumAttempts == 0 && p.expirationInterval == 0 then NO_RETRY
    else if p.maximumAttempts > 0 && attempt > p.maximumAttempts - 1 then NO_RETRY
    else if interval == NO_RETRY then NO_RETRY
    else if expireTime.Some? && f.now + interval > expireTime.value then NO_RETRY
    else if f.reason in p.nonRetriableErrorReasons then NO_RETRY
    else interval
  }

  /** The computed interval cut to the maximum; the maximum itself where the computation overflowed. */
  predicate IsDelay(p: Policy, computed: int, d: int) {
    && (computed <= 0 && p.maximumInterval > 0 ==> d == p.maximumInterval)
    && (computed > 0 ==>
          && d <= computed && (p.maximumInterval > 0 ==> d <= p.maximumInterval)
          && (d == computed || (p.maximumInterval > 0 && d == p.maximumInterval)))
  }

  /** Exactly when there is a retry, and after how long. */
  lemma RetriesExactlyWhen(p: Policy, attempt: int, f: Failure, expireTime: Option<int>, d: int)
    requires IsDelay(p, f.computed, d)
    ensures var b := Backoff(p, attempt, f, expireTime);
            && (b == NO_RETRY || b > 0)
            && (b > 0 <==>
                  && (p.maximumAttempts != 0 || p.expirationInterval != 0)
                  && (p.maximumAttempts > 0 ==> attempt < p.maximumAttempts)
                  && (f.computed > 0 || p.maximumInterval > 0)
                  && (expireTime.Some? ==> f.now + d <= expireTime.value)
                  && f.reason !in p.nonRetriableErrorReasons)
            && (b > 0 ==> b == d)
  {
  }

  /** The interval, with the reasons compared one by one. */
  method GetRetryBackoff(p: Policy, attempt: int, f: Failure, expireTime: Option<int>) returns (backoff: int)
    ensures backoff == Backoff(p, attempt, f, expireTime)
    ensures backoff != NO_RETRY ==> backoff > 0 && IsDelay(p, f.computed, backoff)
  {
    if p.maximumAttempts == 0 && p.expirationInterval == 0 {
      return NO_RETRY;
    }
    if p.maximumAttempts > 0 && attempt > p.maximumAttempts - 1 {
      return NO_RETRY;
    }
    backoff := f.computed;
    if backoff <= 0 {
      if p.maximumInterval > 0 { backoff := p.maximumInterval; } else { return NO_RETRY; }
    }
    if p.maximumInterval > 0 && backoff > p.maximumInterval {
      backoff := p.maximumInterval;
    }
    if expireTime.Some? && f.now + backoff > expireTime.value {
      return NO_RETRY;
    }
    var i := 0;
    while i < |p.nonRetriableErrorReasons|
      invariant i <= |p.nonRetriableErrorReasons| && f.reason !in p.nonRetriableErrorReasons[..i]
    {
      if p.nonRetriableErrorReasons[i] == f.reason { return NO_RETRY; }
      i := i + 1;
    }
  }

  /** How often an activity runs that fails every time, from a given attempt on. */
  function Executions(p: Policy, failures: nat -> Failure, attempt: nat, expireTime: Option<int>): nat
    requires p.maximumAttempts > 0
    decreases p.maximumAttempts - attempt
  {
    if attempt < p.maximumAttempts && Backoff(p, attempt, failures(attempt), expireTime) > 0
    then 1 + Executions(p, failures, attempt + 1, expireTime)
    else 1
  }

  /** The loop stops where the backoff says so: the guard on attempts is the backoff's own. */
  lemma StopsWhereBackoffSays(p: Policy, failures: nat -> Failure, attempt: nat, expireTime: Option<int>)
    requires p.maximumAttempts > 0
    ensures Executions(p, failures, attempt, expireTime) > 1 <==> Backoff(p, attempt, failures(attempt), expireTime) > 0
  {
  }

  /** Nothing but the number of attempts speaks against a retry. */
  predicate Retriable(p: Policy, f: Failure, expireTime: Option<int>) {
    && (f.computed > 0 || p.maximumInterval > 0) && f.reason !in p.nonRetriableErrorReasons
    && (expireTime.Some? ==> f.now + Interval(p, f.computed) <= expireTime.value)
  }

  ghost predicate AllRetriable(p: Policy, failures: nat -> Failure, from: nat, expireTime: Option<int>) {
    forall k: nat :: from <= k < p.maximumAttempts ==> Retriable(p, failures(k), expireTime)
  }

  /** From attempt 0 an activity runs at most one more time than `MaximumAttempts`. */
  lemma {:induction false} ExecutionsAreBounded(p: Policy, failures: nat -> Failure, attempt: nat,
      expireTime: Option<int>)
    requires p.maximumAttempts > 0 && attempt <= p.maximumAttempts
    ensures Executions(p, failures, attempt, expireTime) <= p.maximumAttempts - attempt + 1
    decreases p.maximumAttempts - attempt
  {
    if attempt < p.maximumAttempts { ExecutionsAreBounded(p, failures, attempt + 1, expireTime); }
  }

  /** And it does run that often exactly when nothing else stops it. */
  lemma {:induction false} BoundIsReachedExactly(p: Policy, failures: nat -> Failure, attempt: nat,
      expireTime: Option<int>)
    requires p.maximumAttempts > 0 && attempt <= p.maximumAttempts
    ensures Executions(p, failures, attempt, expireTime) == p.maximumAttempts - attempt + 1 <==>
            AllRetriable(p, failures, attempt, expireTime)
    decreases p.maximumAttempts - attempt
  {
    if attempt < p.maximumAttempts {
      ExecutionsAreBounded(p, failures, attempt + 1, expireTime);
      BoundIsReachedExactly(p, failures, attempt + 1, expireTime);
      if Retriable(p, failures(attempt), expireTime) && AllRetriable(p, failures, attempt + 1, expireTime) {
        assert AllRetriable(p, failures, attempt, expireTime);
      }
    }
  }

  /** With one attempt allowed, which the documentation takes to mean no retry, an activity that fails runs twice. */
  lemma OneMoreThanDocumented(p: Policy, failures: nat -> Failure)
    requires p.maximumAttempts == 1 && AllRetriable(p, failures, 0, None)
    ensures Executions(p, failures, 0, None) == 2
  {
    BoundIsReachedExactly(p, failures, 0, None);
  }
}
