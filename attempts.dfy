/**
 * The retry loops around post creation: each attempt either returns the
 * posting call's result or raises an exception whose text decides whether the
 * loop treats it as a rate limit (HTTP 429, section 4 of RFC 6585).
 */
module Attempts {
  import opened Text
  import opened Json

  /** The posting call's result, or the text of the exception it raised. */
  datatype Attempt = Returned(result: Obj) | Raised(message: string)

  /** The test the orchestrators apply to an exception's text. */
  predicate IsRateLimitError(message: string)
  {
    Contains(message, "429") || Contains(message, "Too Many Requests")
  }

  predicate RateLimited(a: Attempt)
  {
    a.Raised? && IsRateLimitError(a.message)
  }

  /**
   * The first attempt from `k` on that `limited` does not reject, or `limit`
   * when every attempt below `limit` was rejected: the attempt on which a
   * retry loop settles.
   */
  function Settled<A>(attempts: nat -> A, limited: A -> bool, k: nat, limit: nat): (n: nat)
    requires k <= limit
    ensures k <= n <= limit
    ensures forall j :: k <= j < n ==> limited(attempts(j))
    ensures n < limit ==> !limited(attempts(n))
    decreases limit - k
  {
    if k == limit || !limited(attempts(k)) then k else Settled(attempts, limited, k + 1, limit)
  }

  /** The backoff schedule `base * 2 ** i` for the first `count` retries. */
  function Backoff(base: nat, count: nat): (s: seq<nat>)
    ensures |s| == count
    ensures forall i :: 0 <= i < count ==> s[i] == base * Pow2(i)
  {
    if count == 0 then [] else Backoff(base, count - 1) + [base * Pow2(count - 1)]
  }

  /**
   * How the reply helpers read a returned result: truthy with a truthy
   * `data`; a `data` that is not a dict makes the following `.get` raise an
   * error that is no rate limit, so the reply fails.
   */
  predicate ReplyAccepted(result: Obj)
  {
    TruthyObj(result) && Truthy(Get(result, "data")) && Get(result, "data").JObj?
  }

  /** Whether the reply helpers' loop settles on an accepted reply. */
  predicate ReplySucceeds(attempts: nat -> Attempt)
  {
    var n := Settled(attempts, RateLimited, 0, 3);
    n < 3 && attempts(n).Returned? && ReplyAccepted(attempts(n).result)
  }
}
