/** Requests to Microsoft Graph with back-off (app/graph/retry.py). */
module Retry {
  import opened Wrappers

  const MAX_RETRIES: nat := 5
  const MAX_BACKOFF: nat := 60

  /** The Retry-After header: absent, a number of seconds, or text that `float()` rejects. */
  datatype RetryAfter = Absent | Seconds(seconds: real) | Unparsable

  /** What one HTTP exchange yields; a transport error is raised by the HTTP client itself. */
  datatype Reply = Response(status: int, retryAfter: RetryAfter) | TransportError

  datatype Error = HttpStatusError(status: int) | InvalidDelay | Transport

  predicate IsSuccess(reply: Reply) {
    reply.Response? && 200 <= reply.status < 300
  }

  predicate Retryable(reply: Reply) {
    reply.Response? && (reply.status == 429 || reply.status >= 500)
  }

  /** Whether `time.sleep` accepts the delay the header asks for. */
  predicate DelayIsValid(retryAfter: RetryAfter) {
    match retryAfter
    case Absent => true
    case Seconds(s) => s >= 0.0
    case Unparsable => false
  }

  function Power2(k: nat): nat {
    if k == 0 then 1 else 2 * Power2(k - 1)
  }

  function CappedPower(k: nat): nat {
    if Power2(k) <= MAX_BACKOFF then Power2(k) else MAX_BACKOFF
  }

  function Delay(retryAfter: RetryAfter, attempt: nat, jitter: real): real
    requires DelayIsValid(retryAfter)
  {
    match retryAfter
    case Absent => CappedPower(attempt) as real + jitter
    case Seconds(s) => s
  }

  /**
   The sleep after each of the first `n` replies: what its header asks for, or else 2, 4, 8 ... seconds,
   at most 60, and some jitter.
   */
  function SleptBefore(replies: nat -> Reply, jitter: nat -> real, n: nat): real {
    if n == 0 then 0.0
    else
      SleptBefore(replies, jitter, n - 1)
      + if replies(n - 1).Response? && replies(n - 1).retryAfter.Seconds? then replies(n - 1).retryAfter.seconds
        else (if Power2(n) < 60 then Power2(n) else 60) as real + jitter(n)
  }

  /** The longest total sleep after `n` replies without a Retry-After header. */
  function BackoffBound(n: nat): nat {
    if n == 0 then 0 else BackoffBound(n - 1) + CappedPower(n) + 1
  }

  /** `client.request` replies `replies(k)` to the request number k; `random.uniform(0, 1)` yields `jitter(k)`. */
  method GraphRequest(replies: nat -> Reply, jitter: nat -> real, maxRetries: nat)
    returns (result: Result<Reply, Error>, requests: nat, slept: real)
    requires forall k :: 0.0 <= jitter(k) <= 1.0
    ensures 1 <= requests <= maxRetries + 1
    ensures forall k :: 0 <= k < requests - 1 ==>
              && replies(k).Response? && (replies(k).status == 429 || replies(k).status >= 500)
              && (replies(k).retryAfter == Absent
                  || (replies(k).retryAfter.Seconds? && replies(k).retryAfter.seconds >= 0.0))
    ensures var last := replies(requests - 1);
            result == if last.TransportError? then Failure(Transport)
                      else if last.status == 429 || last.status >= 500 then
                        if requests == maxRetries + 1 then Failure(HttpStatusError(last.status))
                          else Failure(InvalidDelay)
                      else if 200 <= last.status < 300 then Success(last)
                      else Failure(HttpStatusError(last.status))
    ensures result == Failure(InvalidDelay) ==>
              var asked := replies(requests - 1).retryAfter;
              asked == Unparsable || (asked.Seconds? && asked.seconds < 0.0)
    ensures slept == SleptBefore(replies, jitter, requests - 1)
    ensures (forall k :: replies(k).Response? ==> replies(k).retryAfter == Absent)
            ==> 0.0 <= slept <= BackoffBound(requests - 1) as real <= BackoffBound(maxRetries) as real
  {
    ghost var noHeaders := forall k :: replies(k).Response? ==> replies(k).retryAfter == Absent;
    var attempt := 0;
    requests, slept := 0, 0.0;
    while true
      invariant requests == attempt <= maxRetries
      invariant forall k :: 0 <= k < requests ==> Retryable(replies(k)) && DelayIsValid(replies(k).retryAfter)
      invariant slept == SleptBefore(replies, jitter, requests)
      invariant noHeaders ==> 0.0 <= slept <= BackoffBound(attempt) as real
      decreases maxRetries - attempt
    {
      BackoffMonotone(attempt, maxRetries);
      var reply := replies(requests);
      requests := requests + 1;
      if reply.TransportError? {
        result := Failure(Transport);
        return;
      }
      if Retryable(reply) {
        attempt := attempt + 1;
        if attempt > maxRetries {
          result := Failure(HttpStatusError(reply.status));
          return;
        }
        if !DelayIsValid(reply.retryAfter) {
          result := Failure(InvalidDelay);
          return;
        }
        slept := slept + Delay(reply.retryAfter, attempt, jitter(requests));
      } else {
        result := if IsSuccess(reply) then Success(reply) else Failure(HttpStatusError(reply.status));
        return;
      }
    }
  }

  lemma {:induction false} BackoffMonotone(m: nat, n: nat)
    requires m <= n
    ensures BackoffBound(m) <= BackoffBound(n)
  {
    if m < n {
      BackoffMonotone(m, n - 1);
    }
  }

  lemma {:induction false} PowerGrows(k: nat)
    requires k >= 6
    ensures Power2(k) > MAX_BACKOFF
  {
    if k > 6 {
      PowerGrows(k - 1);
    } else {
      assert Power2(3) == 8;
      assert Power2(6) == 64;
    }
  }

  /** The capped powers of two sum to 2^(n+1) - 2 before the cap and to 60 a step after it. */
  lemma {:induction false} BackoffClosedForm(n: nat)
    ensures n <= 5 ==> BackoffBound(n) == 2 * Power2(n) - 2 + n
    ensures n > 5 ==> BackoffBound(n) == 62 + MAX_BACKOFF * (n - 5) + n
    ensures BackoffBound(MAX_RETRIES) == 67
  {
    assert Power2(3) == 8 && Power2(5) == 32;
    if n > 0 {
      BackoffClosedForm(n - 1);
      if n > 5 {
        PowerGrows(n);
      } else {
        assert Power2(n) == 2 * Power2(n - 1) && Power2(n) <= 32;
      }
    }
    SmallBounds();
  }

  lemma SmallBounds()
    ensures Power2(1) == 2 && Power2(2) == 4 && Power2(3) == 8 && Power2(4) == 16 && Power2(5) == 32
    ensures BackoffBound(3) == 17 && BackoffBound(5) == 67
  {
    assert Power2(2) == 4;
    assert Power2(4) == 16;
    assert BackoffBound(2) == 8;
    assert BackoffBound(4) == 34;
  }
}
