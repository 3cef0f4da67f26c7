/**
 * The packaged client's `/twoots` endpoints: the request each call sends and
 * how it turns the reply into a result or an `HTTPError`.
 */
module TwootsApi {
  import opened Wrappers
  import opened Text
  import opened Json
  import opened Http

  const BASE := "/twoots"

  datatype Op = Create | Get | Replies | Like | Unlike | Repost | Unrepost | Delete

  /** The failure a call raises: an `HTTPError` for the status, or the transport's exception. */
  datatype ApiError = HttpError(status: int) | Transport(message: string)

  /** `create`: `parent_id` always travels (null when absent); `embed` and `media` only when not None. */
  function CreateRequest(content: string, parentId: Option<int>, embed: Option<string>,
                         media: Option<seq<string>>): (r: Request)
    ensures r.verb == POST && r.path == "/twoots/"
    ensures "content" in r.body && r.body["content"] == JStr(content)
    ensures "parent_id" in r.body && r.body["parent_id"] == (if parentId.Some? then JInt(parentId.value) else JNull)
    ensures "embed" in r.body <==> embed.Some?
    ensures "embed" in r.body ==> r.body["embed"] == JStr(embed.value)
    ensures "media" in r.body <==> media.Some?
    ensures "media" in r.body ==> r.body["media"].JList? && |r.body["media"].items| == |media.value|
    ensures "media" in r.body ==> forall i :: 0 <= i < |media.value| ==> r.body["media"].items[i] == JStr(media.value[i])
    ensures r.body.Keys <= {"content", "parent_id", "embed", "media"}
  {
    var payload := map["content" := JStr(content), "parent_id" := if parentId.Some? then JInt(parentId.value) else JNull];
    var withEmbed := if embed.Some? then payload["embed" := JStr(embed.value)] else payload;
    var withMedia := if media.Some? then withEmbed["media" := Strings(media.value)] else withEmbed;
    Request(POST, BASE + "/", withMedia, map[])
  }

  /** The path of one post, `/twoots/<id>/`. */
  function PostPath(postId: int): string
  {
    BASE + "/" + IntToString(postId) + "/"
  }

  /** The verb and path of every operation on a post other than `create`. */
  function Endpoint(op: Op, postId: int): (r: (Verb, string))
    requires op != Create
    ensures StartsWith(r.1, PostPath(postId))
    ensures r.0 == DELETE <==> op == Unlike || op == Unrepost || op == Delete
    ensures op == Get ==> r == (GET, PostPath(postId))
    ensures op == Replies ==> r == (GET, PostPath(postId) + "replies")
    ensures op == Like ==> r == (POST, PostPath(postId) + "like")
    ensures op == Unlike ==> r == (DELETE, PostPath(postId) + "like")
    ensures op == Repost ==> r == (POST, PostPath(postId) + "repost")
    ensures op == Unrepost ==> r == (DELETE, PostPath(postId) + "repost")
    ensures op == Delete ==> r == (DELETE, PostPath(postId))
  {
    var post := PostPath(postId);
    assert post + "" == post;
    var route := Route(op);
    assert (post + route.1)[..|post|] == post;
    (route.0, post + route.1)
  }

  /** The verb of an operation on a post, and what follows the post's own path. */
  function Route(op: Op): (Verb, string)
    requires op != Create
  {
    match op
    case Get => (GET, "")
    case Replies => (GET, "replies")
    case Like => (POST, "like")
    case Unlike => (DELETE, "like")
    case Repost => (POST, "repost")
    case Unrepost => (DELETE, "repost")
    case Delete => (DELETE, "")
  }

  /** `raise_for_status()` then `json()`: create, get, replies, like and repost. */
  function Checked(reply: Reply): (r: Result<Obj, ApiError>)
    ensures r.Err? <==> reply.NetworkError? || RaisesForStatus(reply.status)
    ensures r.Ok? ==> r.value == reply.body
  {
    match reply
    case NetworkError(m) => Err(Transport(m))
    case Reply(status, body, _) => if RaisesForStatus(status) then Err(HttpError(status)) else Ok(body)
  }

  /** unlike, unrepost and delete: a 2xx answer is returned at once, anything else goes through `raise_for_status()`. */
  function Lenient(reply: Reply): Result<Obj, ApiError>
  {
    match reply
    case NetworkError(m) => Err(Transport(m))
    case Reply(status, body, _) =>
      if IsSuccess(status) then Ok(body)
      else if RaisesForStatus(status) then Err(HttpError(status))
      else Ok(body)
  }

  /** The early 2xx return of unlike, unrepost and delete changes nothing: they fail exactly like the others. */
  lemma LenientIsChecked(reply: Reply)
    ensures Lenient(reply) == Checked(reply)
  {
  }

  /** Like and unlike address the same resource with different verbs; so do repost and unrepost, and get and delete. */
  lemma PairedEndpoints(postId: int)
    ensures Endpoint(Like, postId).1 == Endpoint(Unlike, postId).1 && Endpoint(Like, postId).0 != Endpoint(Unlike, postId).0
    ensures Endpoint(Repost, postId).1 == Endpoint(Unrepost, postId).1 && Endpoint(Repost, postId).0 != Endpoint(Unrepost, postId).0
    ensures Endpoint(Get, postId).1 == Endpoint(Delete, postId).1 && Endpoint(Get, postId).0 != Endpoint(Delete, postId).0
  {
  }
}
