/** `faculty/datasets/retries.py`: repeating a request while its status is
    retryable, up to a bound. Call `k` (from 0) of `make_request` answers
    `makeRequest(k)`; the randomised backoff of attempt `n` is the input
    `backoff(n)`, and the sleeps are recorded rather than taken. */
module Retries {
  import opened Wrappers

  function Min(a: int, b: int): int { if a <= b then a else b }

  /** `retryable_codes`, with None read as the empty list. */
  predicate Retryable(code: int, retryableCodes: Option<seq<int>>) {
    retryableCodes.Some? && code in retryableCodes.value
  }

  /** `maybe_retry(make_request, max_attempts, max_backoff, retryable_codes)`:
      `calls` requests are made and the last response is returned; `delays`
      are the sleeps between them. */
  method MaybeRetry<R>(makeRequest: nat -> R, statusCode: R -> int, maxAttempts: int, maxBackoff: int,
                       retryableCodes: Option<seq<int>>, backoff: nat -> int)
    returns (response: R, calls: nat, delays: seq<int>)
    ensures 1 <= calls && (calls == 1 || calls - 1 <= maxAttempts)
    ensures response == makeRequest(calls - 1)
    ensures forall k :: 0 <= k < calls - 1 ==> Retryable(statusCode(makeRequest(k)), retryableCodes)
    ensures !Retryable(statusCode(response), retryableCodes) || calls - 1 >= maxAttempts
    ensures retryableCodes.None? ==> calls == 1
    ensures calls == CallsFrom(makeRequest, statusCode, maxAttempts, retryableCodes, 0)
    ensures |delays| == calls - 1
    ensures forall i :: 0 <= i < |delays| ==> delays[i] == Min(backoff(i + 1), maxBackoff) && delays[i] <= maxBackoff
  {
    var nAttempts: nat := 0;
    delays := [];
    response := makeRequest(0);
    calls := 1;
    while Retryable(statusCode(response), retryableCodes) && nAttempts < maxAttempts
      invariant calls == nAttempts + 1 && |delays| == nAttempts
      invariant nAttempts == 0 || nAttempts <= maxAttempts
      invariant response == makeRequest(nAttempts)
      invariant forall k :: 0 <= k < nAttempts ==> Retryable(statusCode(makeRequest(k)), retryableCodes)
      invariant forall i :: 0 <= i < |delays| ==> delays[i] == Min(backoff(i + 1), maxBackoff)
      decreases maxAttempts - nAttempts
    {
      nAttempts := nAttempts + 1;
      var delay := Min(backoff(nAttempts), maxBackoff);
      delays := delays + [delay];
      response := makeRequest(nAttempts);
      calls := calls + 1;
    }
    CallsUnique(makeRequest, statusCode, maxAttempts, retryableCodes, calls);
  }

  /** The number of calls `maybe_retry` makes, as a reference definition:
      call `k` is followed by another one while it is retryable and fewer
      than `maxAttempts` retries have been made. */
  function CallsFrom<R>(makeRequest: nat -> R, statusCode: R -> int, maxAttempts: int,
                        retryableCodes: Option<seq<int>>, k: nat): (n: nat)
    ensures n >= k + 1
    decreases if maxAttempts > k then maxAttempts - k else 0
  {
    if k < maxAttempts && Retryable(statusCode(makeRequest(k)), retryableCodes)
    then CallsFrom(makeRequest, statusCode, maxAttempts, retryableCodes, k + 1)
    else k + 1
  }

  /** The reference count is the first non-retryable call, or the call after
      the last allowed retry. */
  lemma {:induction false} CallsFromStops<R>(makeRequest: nat -> R, statusCode: R -> int, maxAttempts: int,
                                             retryableCodes: Option<seq<int>>, k: nat)
    ensures var n := CallsFrom(makeRequest, statusCode, maxAttempts, retryableCodes, k);
      (forall j :: k <= j < n - 1 ==> Retryable(statusCode(makeRequest(j)), retryableCodes))
      && (!Retryable(statusCode(makeRequest(n - 1)), retryableCodes) || n - 1 >= maxAttempts)
      && (n == k + 1 || n - 1 <= maxAttempts)
    decreases if maxAttempts > k then maxAttempts - k else 0
  {
    if k < maxAttempts && Retryable(statusCode(makeRequest(k)), retryableCodes) {
      CallsFromStops(makeRequest, statusCode, maxAttempts, retryableCodes, k + 1);
    }
  }

  /** The properties `MaybeRetry` promises determine the number of calls:
      any count with them is the reference count. */
  lemma CallsUnique<R>(makeRequest: nat -> R, statusCode: R -> int, maxAttempts: int,
                       retryableCodes: Option<seq<int>>, calls: nat)
    requires 1 <= calls && (calls == 1 || calls - 1 <= maxAttempts)
    requires forall k :: 0 <= k < calls - 1 ==> Retryable(statusCode(makeRequest(k)), retryableCodes)
    requires !Retryable(statusCode(makeRequest(calls - 1)), retryableCodes) || calls - 1 >= maxAttempts
    ensures calls == CallsFrom(makeRequest, statusCode, maxAttempts, retryableCodes, 0)
  {
    CallsFromStops(makeRequest, statusCode, maxAttempts, retryableCodes, 0);
  }

  /** When every response is retryable, `max_attempts + 1` calls are made. */
  lemma AllRetryable<R>(makeRequest: nat -> R, statusCode: R -> int, maxAttempts: nat,
                        retryableCodes: Option<seq<int>>)
    requires forall k: nat :: Retryable(statusCode(makeRequest(k)), retryableCodes)
    ensures CallsFrom(makeRequest, statusCode, maxAttempts, retryableCodes, 0) == maxAttempts + 1
  {
    CallsFromStops(makeRequest, statusCode, maxAttempts, retryableCodes, 0);
  }

  /** `maybe_retry` as written: the first retry computes its backoff with
      `random.random(0, 1)`, and `random.random` takes no arguments, so a
      retryable first response with a retry allowed raises `TypeError`
      before any second request (and `sys.sleep`, which does not exist,
      is never reached). */
  function MaybeRetryAsWritten<R>(makeRequest: nat -> R, statusCode: R -> int, maxAttempts: int,
                                  retryableCodes: Option<seq<int>>): (r: Result<R, string>)
    ensures r.Ok? <==> !Retryable(statusCode(makeRequest(0)), retryableCodes) || maxAttempts <= 0
    ensures r.Ok? ==> r.value == makeRequest(0)
  {
    var response := makeRequest(0);
    if Retryable(statusCode(response), retryableCodes) && 0 < maxAttempts then Err("TypeError")
    else Ok(response)
  }

  /** Where every response is retryable and a retry is allowed, the code as
      written raises on the first retry, while the intended loop makes
      `max_attempts + 1` requests. */
  lemma RetryAsWrittenRaises<R>(makeRequest: nat -> R, statusCode: R -> int, maxAttempts: nat,
                                retryableCodes: Option<seq<int>>)
    requires maxAttempts >= 1
    requires forall k: nat :: Retryable(statusCode(makeRequest(k)), retryableCodes)
    ensures MaybeRetryAsWritten(makeRequest, statusCode, maxAttempts, retryableCodes).Err?
    ensures CallsFrom(makeRequest, statusCode, maxAttempts, retryableCodes, 0) == maxAttempts + 1
  {
    AllRetryable(makeRequest, statusCode, maxAttempts, retryableCodes);
  }
}
