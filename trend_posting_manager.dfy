/**
 * The trend bot's posting manager.  Its `create_post`, `like_post` and `repost`
 * are line for line those of the team bot's façade (`PostingManager`); what it
 * adds are the feed reads: trending, latest (optionally at a given time) and
 * search by hashtag.
 */
module TrendPostingManager {
  import opened Wrappers
  import opened Text
  import opened Json
  import opened Http
  import opened PostingManager

  datatype Feed = Trending | Latest

  function FeedName(f: Feed): string
  {
    match f
    case Trending => "trending"
    case Latest => "latest"
  }

  /** `get_trending_posts(limit)`: GET /feeds/trending with only `limit`. */
  function TrendingRequest(limit: int): (r: Request)
    ensures r.verb == GET && r.path == "/feeds/trending" && r.body == map[]
    ensures r.params == map["limit" := JInt(limit)]
  {
    Request(GET, "/feeds/trending", map[], map["limit" := JInt(limit)])
  }

  /** `get_latest_posts(limit, at_iso)`: the `at` parameter travels iff `at_iso` is truthy. */
  function LatestRequest(limit: int, atIso: Option<string>): (r: Request)
    ensures r.verb == GET && r.path == "/feeds/latest" && r.body == map[]
    ensures "limit" in r.params && r.params["limit"] == JInt(limit)
    ensures "at" in r.params <==> TruthyStr(atIso)
    ensures "at" in r.params ==> r.params["at"] == JStr(atIso.value)
    ensures r.params.Keys <= {"limit", "at"}
  {
    var params := map["limit" := JInt(limit)];
    Request(GET, "/feeds/latest", map[], if TruthyStr(atIso) then params["at" := JStr(atIso.value)] else params)
  }

  /**
   * A listing read (feeds and search): 200 returns the body once
   * `len(result.get('data', []))` succeeded; anything else raises.
   */
  function Listing(reply: Reply): (r: Result<Obj, Failure>)
    ensures r.Ok? <==> reply.Reply? && reply.status == OK && DataHasLen(reply.body)
    ensures r.Ok? ==> r.value == reply.body
    ensures reply.Reply? && reply.status != OK ==> r == Err(StatusError(reply.status))
    ensures reply.NetworkError? ==> r == Err(Network(reply.message))
  {
    match reply
    case NetworkError(m) => Err(Network(m))
    case Reply(status, body, _) =>
      if status != OK then Err(StatusError(status))
      else if DataHasLen(body) then Ok(body)
      else Err(Malformed)
  }

  /** A feed read: the listing, with `feed_type` set to the feed's name over whatever the server sent. */
  function FeedPosts(f: Feed, reply: Reply): (r: Result<Obj, Failure>)
    ensures r.Ok? <==> Listing(reply).Ok?
    ensures r.Err? ==> r == Listing(reply)
    ensures r.Ok? ==> r.value.Keys == reply.body.Keys + {"feed_type"}
    ensures r.Ok? ==> r.value["feed_type"] == JStr(FeedName(f))
    ensures r.Ok? ==> forall k :: k in reply.body && k != "feed_type" ==> r.value[k] == reply.body[k]
  {
    match Listing(reply)
    case Err(e) => Err(e)
    case Ok(body) => Ok(body["feed_type" := JStr(FeedName(f))])
  }

  /** `get_posts_by_hashtag`: a `#` is put in front unless one is there already. */
  function NormalizeHashtag(h: string): (r: string)
    ensures StartsWith(r, "#")
    ensures StartsWith(h, "#") ==> r == h
    ensures !StartsWith(h, "#") ==> r == "#" + h
  {
    if StartsWith(h, "#") then h else "#" + h
  }

  /** Normalising twice changes nothing more. */
  lemma NormalizeHashtagIdempotent(h: string)
    ensures NormalizeHashtag(NormalizeHashtag(h)) == NormalizeHashtag(h)
  {
  }

  /** Tags with and without their `#` lead to the same search. */
  lemma NormalizeHashtagForgetsHash(h: string)
    ensures NormalizeHashtag("#" + h) == NormalizeHashtag(h) <==> !StartsWith(h, "#")
  {
    assert StartsWith("#" + h, "#");
    if StartsWith(h, "#") {
      assert |"#" + h| != |h|;
    }
  }

  /** `get_posts_by_hashtag(hashtag, limit)`: GET /search with the normalised tag as `query`. */
  function HashtagRequest(hashtag: string, limit: int): (r: Request)
    ensures r.verb == GET && r.path == "/search" && r.body == map[]
    ensures r.params == map["query" := JStr(NormalizeHashtag(hashtag)), "limit" := JInt(limit)]
  {
    Request(GET, "/search", map[], map["query" := JStr(NormalizeHashtag(hashtag)), "limit" := JInt(limit)])
  }

  /**
   * The trend manager's `create_post` refuses to send without a usable session,
   * always sends `parent_id`, and drops a falsy `embed` or `media`.
   */
  lemma CreatePostGuardsAndPayload(token: Option<string>, content: string, parentId: Option<int>,
                                   embed: Option<string>, media: Option<seq<string>>, reply: Reply)
    ensures !TruthyStr(token) ==> CreatePost(token, content, StrOrInt(parentId), embed, media, reply) == Err(NotAuthenticated)
    ensures var body := PostRequest(content, StrOrInt(parentId), embed, media).body;
      "parent_id" in body && (body["parent_id"] == JNull <==> parentId.None?) &&
      ("embed" in body <==> TruthyStr(embed)) && ("media" in body <==> media.Some? && media.value != [])
  {
    CanSendIffTruthy(token);
  }

  /** The trend manager's `like_post`: 200 gives the body, 409 gives `already_liked`, and nothing else succeeds. */
  lemma LikeOutcomes(token: Option<string>, postId: int, reply: Reply)
    requires TruthyStr(token)
    ensures ActionOutcome(Like, token, postId, reply).Ok? <==> reply.Reply? && reply.status in {OK, CONFLICT}
    ensures reply.Reply? && reply.status == CONFLICT ==>
              ActionOutcome(Like, token, postId, reply) == Ok(map["status" := JStr("already_liked"), "post_id" := JInt(postId)])
  {
    CanSendIffTruthy(token);
  }

  /** The trend manager's `repost`: 200 gives the body, 409 gives `already_reposted`, and nothing else succeeds. */
  lemma RepostOutcomes(token: Option<string>, postId: int, reply: Reply)
    requires TruthyStr(token)
    ensures ActionOutcome(Repost, token, postId, reply).Ok? <==> reply.Reply? && reply.status in {OK, CONFLICT}
    ensures reply.Reply? && reply.status == CONFLICT ==>
              ActionOutcome(Repost, token, postId, reply) == Ok(map["status" := JStr("already_reposted"), "post_id" := JInt(postId)])
  {
    CanSendIffTruthy(token);
  }
}
