/**
 * Engagement with trending posts: like and repost with per-operation error
 * records, the bounded retry around posting a reply, the reply's
 * 255-character fit and the per-hashtag cap. The feed, the language model
 * and the posting calls are oracles.
 */
module TrendingOrchestrator {
  import opened Wrappers
  import opened Text
  import opened Json
  import opened Attempts

  const MAX_RETRIES: nat := 3
  const BASE_DELAY: nat := 5
  const ENGAGE_PAUSE: nat := 2

  /** The record `engage_with_post` returns. */
  datatype Engagement = Engagement(like: bool, repost: bool, errors: seq<string>)

  function LikeError(postId: int, message: string): string
  {
    "Error liking post " + IntToString(postId) + ": " + message
  }

  function RepostError(postId: int, message: string): string
  {
    "Error reposting post " + IntToString(postId) + ": " + message
  }

  /**
   * `engage_with_post`: `liked` and `reposted` are what the like and repost
   * calls returned (`Ok`) or the text of what they raised (`Err`). Returns the
   * record and the pause taken between the two calls.
   */
  method EngageWithPost(postId: int, liked: Result<Json, string>, reposted: Result<Json, string>)
    returns (e: Engagement, sleeps: seq<nat>)
    ensures e.like <==> liked.Ok? && Truthy(liked.value)
    ensures e.repost <==> reposted.Ok? && Truthy(reposted.value)
    ensures e.errors ==
      (if liked.Err? then [LikeError(postId, liked.error)] else [])
      + (if reposted.Err? then [RepostError(postId, reposted.error)] else [])
    ensures sleeps == [ENGAGE_PAUSE]
  {
    e := Engagement(false, false, []);
    match liked {
      case Ok(result) =>
        if Truthy(result) {
          e := e.(like := true);
        }
      case Err(message) =>
        e := e.(errors := e.errors + [LikeError(postId, message)]);
    }
    sleeps := [ENGAGE_PAUSE];
    match reposted {
      case Ok(result) =>
        if Truthy(result) {
          e := e.(repost := true);
        }
      case Err(message) =>
        e := e.(errors := e.errors + [RepostError(postId, message)]);
    }
  }

  /** The reply's id inside an accepted response: `data.get('id')`. */
  function ReplyId(result: Obj): Json
    requires ReplyAccepted(result)
  {
    Get(Get(result, "data").fields, "id")
  }

  /**
   * `reply_to_post`: attempt `k` of the posting call answers `attempts(k)`.
   * Returns the success flag, the reply's id (null when there is none) and
   * the backoff sleeps taken.
   */
  method ReplyToPost(attempts: nat -> Attempt) returns (ok: bool, replyId: Json, sleeps: seq<nat>)
    ensures ok <==> ReplySucceeds(attempts)
    ensures var n := Settled(attempts, RateLimited, 0, MAX_RETRIES);
      && (ok ==> replyId == ReplyId(attempts(n).result))
      && (!ok ==> replyId == JNull)
      && sleeps == Backoff(BASE_DELAY, Min(n, MAX_RETRIES - 1))
  {
    sleeps := [];
    for attempt := 0 to MAX_RETRIES
      invariant forall j :: 0 <= j < attempt ==> RateLimited(attempts(j))
      invariant sleeps == Backoff(BASE_DELAY, Min(attempt, MAX_RETRIES - 1))
    {
      match attempts(attempt)
      case Returned(result) =>
        if ReplyAccepted(result) {
          return true, ReplyId(result), sleeps;
        }
        return false, JNull, sleeps;
      case Raised(message) =>
        if IsRateLimitError(message) {
          if attempt < MAX_RETRIES - 1 {
            sleeps := sleeps + [BASE_DELAY * Pow2(attempt)];
            continue;
          } else {
            return false, JNull, sleeps;
          }
        } else {
          return false, JNull, sleeps;
        }
    }
    ok, replyId := false, JNull;
  }

  /** The schedule is 5 s then 10 s at most. */
  lemma ReplySleepsBounded(attempts: nat -> Attempt)
    ensures Backoff(BASE_DELAY, Min(Settled(attempts, RateLimited, 0, MAX_RETRIES), MAX_RETRIES - 1)) <= [5, 10]
  {
    var b := Backoff(BASE_DELAY, Min(Settled(attempts, RateLimited, 0, MAX_RETRIES), MAX_RETRIES - 1));
    assert Pow2(1) == 2;
    assert forall i :: 0 <= i < |b| ==> b[i] == [5, 10][i];
  }

  /** `posts[:max_posts_per_hashtag]`. */
  function PostsToProcess<T>(posts: seq<T>, maxPerHashtag: int): (r: seq<T>)
    ensures |r| <= |posts| && r == posts[..|r|]
    ensures maxPerHashtag >= 0 ==> |r| == Min(maxPerHashtag, |posts|)
  {
    Take(posts, maxPerHashtag)
  }
}
