/**
 * The team bot's posting façade: post creation, the like/unlike/repost/unrepost
 * family with its 409 Conflict handling, post lookup, threads and bulk likes.
 *
 * The session token is the `current_token` of the authentication manager the
 * façade wraps; every HTTP call is a `Reply` parameter (for the loops, an
 * oracle `net(k)` giving the reply to the k-th call).
 */
module PostingManager {
  import opened Wrappers
  import opened Text
  import opened Json
  import opened Http
  import AuthManager
  import TwootsApi

  /** Why a façade call raised. */
  datatype Failure =
    /** `is_authenticated()` was false, or `get_auth_headers()` refused a falsy token. */
    | NotAuthenticated
    /** A `RequestException` wrapped as "Network error ...". */
    | Network(message: string)
    /** Any status the call does not accept: "... failed: {status} - {detail}". */
    | StatusError(status: int)
    /** `get_post` on a 404. */
    | NotFound(postId: int)
    /** Reading `data` from an accepted body raised: `.get` on a non-object or `len` of a value without one. */
    | Malformed
    /** `create_thread` with no posts. */
    | EmptyThread

  /** Whether the façade may send an authenticated request with this session token. */
  predicate CanSend(token: Option<string>)
  {
    token.Some? && AuthManager.AuthHeaders(token).Ok?
  }

  lemma CanSendIffTruthy(token: Option<string>)
    ensures CanSend(token) <==> TruthyStr(token)
  {
  }

  /**
   * The body of `create_post`: `parent_id` always travels, even as null;
   * `embed` and `media` only when truthy (a non-empty string or list).
   */
  function PostPayload(content: string, parentId: Json, embed: Option<string>, media: Option<seq<string>>): (r: Obj)
    ensures "content" in r && r["content"] == JStr(content)
    ensures "parent_id" in r && r["parent_id"] == parentId
    ensures "embed" in r <==> TruthyStr(embed)
    ensures "embed" in r ==> r["embed"] == JStr(embed.value)
    ensures "media" in r <==> media.Some? && media.value != []
    ensures "media" in r ==> r["media"].JList? && |r["media"].items| == |media.value|
    ensures "media" in r ==> forall i :: 0 <= i < |media.value| ==> r["media"].items[i] == JStr(media.value[i])
    ensures r.Keys <= {"content", "parent_id", "embed", "media"}
  {
    var payload := map["content" := JStr(content), "parent_id" := parentId];
    var withEmbed := if TruthyStr(embed) then payload["embed" := JStr(embed.value)] else payload;
    if media.Some? && media.value != [] then
      withEmbed["media" := Strings(media.value)]
    else withEmbed
  }

  /** `create_post`: the request it sends. */
  function PostRequest(content: string, parentId: Json, embed: Option<string>, media: Option<seq<string>>): (r: Request)
    ensures r.verb == POST && r.path == "/twoots/" && r.params == map[]
    ensures r.body == PostPayload(content, parentId, embed, media)
  {
    Request(POST, "/twoots/", PostPayload(content, parentId, embed, media), map[])
  }

  /**
   * `create_post`: the outcome once the server answered `reply`.  A 200 or 201
   * returns the body, provided `data` (when present) is an object; the id lookup
   * on any other `data` raises.
   */
  function CreatePost(token: Option<string>, content: string, parentId: Json,
                      embed: Option<string>, media: Option<seq<string>>, reply: Reply): (r: Result<Obj, Failure>)
    ensures !CanSend(token) ==> r == Err(NotAuthenticated)
    ensures r.Ok? <==> CanSend(token) && reply.Reply? && (reply.status == OK || reply.status == CREATED)
                       && GetNested(reply.body, "data", "id").Ok?
    ensures r.Ok? ==> r.value == reply.body
    ensures CanSend(token) && reply.NetworkError? ==> r == Err(Network(reply.message))
    ensures CanSend(token) && reply.Reply? && reply.status != OK && reply.status != CREATED ==>
              r == Err(StatusError(reply.status))
  {
    if token.None? then Err(NotAuthenticated)
    else if AuthManager.AuthHeaders(token).Err? then Err(NotAuthenticated)
    else match reply
      case NetworkError(m) => Err(Network(m))
      case Reply(status, body, _) =>
        if status == OK || status == CREATED then
          if GetNested(body, "data", "id").Ok? then Ok(body) else Err(Malformed)
        else Err(StatusError(status))
  }

  /**
   * Where the façade's acceptance differs from the packaged client: every post it
   * accepts, the client accepts too, with the same body; the client also takes
   * 202-399 and ignores the shape of `data`.
   */
  lemma CreatePostNarrowerThanClient(token: Option<string>, content: string, parentId: Option<int>,
                                     embed: Option<string>, media: Option<seq<string>>, reply: Reply)
    requires CreatePost(token, content, StrOrInt(parentId), embed, media, reply).Ok?
    ensures TwootsApi.Checked(reply) == Ok(reply.body)
  {
  }

  /** A Python `Optional[int]` as the JSON value sent for it. */
  function StrOrInt(n: Option<int>): (j: Json)
    ensures j == JNull <==> n.None?
  {
    if n.Some? then JInt(n.value) else JNull
  }

  /**
   * The façade and the packaged client send the same body for `create` unless
   * an empty `embed` string or an empty `media` list is given: the façade drops
   * them, the client sends them.
   */
  lemma PayloadsAgreeUnlessEmpty(content: string, parentId: Option<int>, embed: Option<string>, media: Option<seq<string>>)
    ensures (embed != Some("") && media != Some([])) <==>
            PostPayload(content, StrOrInt(parentId), embed, media) == TwootsApi.CreateRequest(content, parentId, embed, media).body
  {
    var facade := PostPayload(content, StrOrInt(parentId), embed, media);
    var client := TwootsApi.CreateRequest(content, parentId, embed, media).body;
    if embed == Some("") {
      assert "embed" in client && "embed" !in facade;
    } else if media == Some([]) {
      assert "media" in client && "media" !in facade;
    }
  }

  /** The four toggles on a post. */
  datatype Action = Like | Unlike | Repost | Unrepost

  /** The `status` the façade reports when the server answers 409 Conflict. */
  function ConflictStatus(a: Action): string
  {
    match a
    case Like => "already_liked"
    case Unlike => "not_liked"
    case Repost => "already_reposted"
    case Unrepost => "not_reposted"
  }

  /** The success-shaped body returned on a 409. */
  function ConflictBody(a: Action, postId: int): (r: Obj)
    ensures r.Keys == {"status", "post_id"}
    ensures r["status"] == JStr(ConflictStatus(a)) && r["post_id"] == JInt(postId)
  {
    map["status" := JStr(ConflictStatus(a)), "post_id" := JInt(postId)]
  }

  /** The action a conflict body reports can be read back from it, so no two actions share one. */
  lemma ConflictBodyNamesAction(a: Action, b: Action, postId: int, otherId: int)
    ensures ConflictBody(a, postId) == ConflictBody(b, otherId) <==> a == b && postId == otherId
  {
    if ConflictBody(a, postId) == ConflictBody(b, otherId) {
      assert ConflictBody(a, postId)["status"] == ConflictBody(b, otherId)["status"];
      assert ConflictBody(a, postId)["post_id"] == ConflictBody(b, otherId)["post_id"];
      assert ConflictStatus(a) == ConflictStatus(b);
    }
  }

  /** The request each action sends: like and repost POST an empty body, unlike and unrepost DELETE. */
  function ActionRequest(a: Action, postId: int): (r: Request)
    ensures r.verb == (if a == Like || a == Repost then POST else DELETE)
    ensures r.body == map[] && r.params == map[]
  {
    var post := TwootsApi.BASE + "/" + IntToString(postId) + "/";
    match a
    case Like => Request(POST, post + "like", map[], map[])
    case Unlike => Request(DELETE, post + "like", map[], map[])
    case Repost => Request(POST, post + "repost", map[], map[])
    case Unrepost => Request(DELETE, post + "repost", map[], map[])
  }

  function ClientOp(a: Action): TwootsApi.Op
  {
    match a
    case Like => TwootsApi.Like
    case Unlike => TwootsApi.Unlike
    case Repost => TwootsApi.Repost
    case Unrepost => TwootsApi.Unrepost
  }

  /** The façade addresses the same endpoint with the same verb as the packaged client. */
  lemma ActionRequestMatchesClient(a: Action, postId: int)
    ensures (ActionRequest(a, postId).verb, ActionRequest(a, postId).path) == TwootsApi.Endpoint(ClientOp(a), postId)
  {
  }

  /**
   * like_post, unlike_post, repost and unrepost: 200 returns the body, 409
   * Conflict returns the action's status body, anything else raises.
   */
  function ActionOutcome(a: Action, token: Option<string>, postId: int, reply: Reply): (r: Result<Obj, Failure>)
    ensures !CanSend(token) ==> r == Err(NotAuthenticated)
    ensures r.Ok? <==> CanSend(token) && reply.Reply? && (reply.status == OK || reply.status == CONFLICT)
    ensures r.Ok? && reply.status == OK ==> r.value == reply.body
    ensures r.Ok? && reply.status == CONFLICT ==> r.value == ConflictBody(a, postId)
    ensures CanSend(token) && reply.NetworkError? ==> r == Err(Network(reply.message))
    ensures CanSend(token) && reply.Reply? && reply.status != OK && reply.status != CONFLICT ==>
              r == Err(StatusError(reply.status))
  {
    if token.None? then Err(NotAuthenticated)
    else if AuthManager.AuthHeaders(token).Err? then Err(NotAuthenticated)
    else match reply
      case NetworkError(m) => Err(Network(m))
      case Reply(status, body, _) =>
        if status == OK then Ok(body)
        else if status == CONFLICT then Ok(ConflictBody(a, postId))
        else Err(StatusError(status))
  }

  /**
   * A conflict is not an error to the façade, while the packaged client raises
   * on it: repeating a like that already took effect succeeds here.
   */
  lemma ConflictAbsorbed(a: Action, token: Option<string>, postId: int, body: Obj, text: string)
    requires TruthyStr(token)
    ensures ActionOutcome(a, token, postId, Reply(CONFLICT, body, text)) == Ok(ConflictBody(a, postId))
    ensures TwootsApi.Checked(Reply(CONFLICT, body, text)) == Err(TwootsApi.HttpError(CONFLICT))
  {
  }

  /** `get_post` sends no body and no credentials. */
  function GetPostRequest(postId: int): (r: Request)
    ensures r.verb == GET && r.body == map[] && r.params == map[]
    ensures r.path == TwootsApi.Endpoint(TwootsApi.Get, postId).1
  {
    var post := TwootsApi.BASE + "/" + IntToString(postId) + "/";
    assert post + "" == post;
    Request(GET, post, map[], map[])
  }

  /** `get_post`: 200 returns the body, 404 is "not found", any other status raises. */
  function GetPost(postId: int, reply: Reply): (r: Result<Obj, Failure>)
    ensures r.Ok? <==> reply.Reply? && reply.status == OK
    ensures r.Ok? ==> r.value == reply.body
    ensures reply.Reply? && reply.status == NOT_FOUND ==> r == Err(NotFound(postId))
    ensures reply.Reply? && reply.status != OK && reply.status != NOT_FOUND ==> r == Err(StatusError(reply.status))
    ensures reply.NetworkError? ==> r == Err(Network(reply.message))
  {
    match reply
    case NetworkError(m) => Err(Network(m))
    case Reply(status, body, _) =>
      if status == OK then Ok(body)
      else if status == NOT_FOUND then Err(NotFound(postId))
      else Err(StatusError(status))
  }

  /** Every post `get_post` returns, the packaged client returns as well. */
  lemma GetPostNarrowerThanClient(postId: int, reply: Reply)
    requires GetPost(postId, reply).Ok?
    ensures TwootsApi.Checked(reply) == Ok(GetPost(postId, reply).value)
  {
  }

  // ---------------------------------------------------------------- threads

  /** The content of post `i` of a thread: the first as given, later ones with " (i+1/n)". */
  function ThreadContent(posts: seq<string>, i: nat): string
    requires i < |posts|
  {
    if i == 0 then posts[0]
    else posts[i] + " (" + IntToString(i + 1) + "/" + IntToString(|posts|) + ")"
  }

  /** Later posts keep their text and gain a counter ending in the thread's length. */
  lemma ThreadContentShape(posts: seq<string>, i: nat)
    requires i < |posts|
    ensures i == 0 ==> ThreadContent(posts, i) == posts[0]
    ensures i > 0 ==> StartsWith(ThreadContent(posts, i), posts[i] + " (") &&
                      EndsWith(ThreadContent(posts, i), "/" + IntToString(|posts|) + ")")
    ensures i > 0 ==> |ThreadContent(posts, i)| > |posts[i]| + 4
  {
    if i > 0 {
      var r := ThreadContent(posts, i);
      NatStringNonEmpty(i + 1);
      var head := posts[i] + " (";
      var tail := "/" + IntToString(|posts|) + ")";
      assert r == head + IntToString(i + 1) + tail;
      assert r[..|head|] == head;
      assert r[|r| - |tail|..] == tail;
    }
  }

  lemma NatStringNonEmpty(n: nat)
    ensures |IntToString(n)| >= 1
  {
  }

  /** The parent for the next thread post: `result.get('data', {}).get('id')` of an accepted post. */
  function NextParent(body: Obj): (j: Json)
    requires GetNested(body, "data", "id").Ok?
    ensures j != JNull ==> "data" in body && body["data"].JObj? && "id" in body["data"].fields && j == body["data"].fields["id"]
  {
    GetNested(body, "data", "id").value
  }

  /** The arguments `create_thread` hands to `create_post` for the k-th post. */
  datatype PostCall = PostCall(content: string, parentId: Json)

  function CallOutcome(token: Option<string>, call: PostCall, reply: Reply): Result<Obj, Failure>
  {
    CreatePost(token, call.content, call.parentId, None, None, reply)
  }

  /** Post `k` of a thread answers post `k - 1`, which was accepted. */
  predicate Chained(token: Option<string>, calls: seq<PostCall>, net: nat -> Reply, k: nat)
    requires 0 < k < |calls|
  {
    CallOutcome(token, calls[k - 1], net(k - 1)).Ok? && calls[k].parentId == NextParent(net(k - 1).body)
  }

  /** Appending the next post's call keeps every call's content the thread's. */
  lemma ContentsExtend(posts: seq<string>, calls: seq<PostCall>, call: PostCall)
    requires |calls| < |posts|
    requires forall k :: 0 <= k < |calls| ==> calls[k].content == ThreadContent(posts, k)
    requires call.content == ThreadContent(posts, |calls|)
    ensures forall k :: 0 <= k < |calls + [call]| ==> (calls + [call])[k].content == ThreadContent(posts, k)
  {
  }

  /** Appending a call that answers the last accepted one keeps a chain a chain. */
  lemma ChainExtends(token: Option<string>, calls: seq<PostCall>, net: nat -> Reply, call: PostCall)
    requires forall k :: 0 < k < |calls| ==> Chained(token, calls, net, k)
    requires |calls| > 0 ==> CallOutcome(token, calls[|calls| - 1], net(|calls| - 1)).Ok? &&
                             call.parentId == NextParent(net(|calls| - 1).body)
    ensures forall k :: 0 < k < |calls + [call]| ==> Chained(token, calls + [call], net, k)
  {
    var ext := calls + [call];
    forall k | 0 < k < |ext|
      ensures Chained(token, ext, net, k)
    {
      assert ext[k - 1] == calls[k - 1];
      if k < |calls| {
        assert ext[k] == calls[k];
        assert Chained(token, calls, net, k);
      }
    }
  }

  /**
   * `create_thread` from post `i` on, with `parent` the parent for post `i` and
   * `calls`/`results` what the earlier posts produced: the outcome and every
   * `create_post` call made.
   */
  function ThreadFrom(token: Option<string>, posts: seq<string>, net: nat -> Reply, i: nat, parent: Json,
                      calls: seq<PostCall>, results: seq<Obj>): (Result<seq<Obj>, Failure>, seq<PostCall>)
    requires i <= |posts|
    decreases |posts| - i
  {
    if i == |posts| then (Ok(results), calls)
    else
      var call := PostCall(ThreadContent(posts, i), parent);
      var outcome := CallOutcome(token, call, net(i));
      if outcome.Err? then (Err(outcome.error), calls + [call])
      else ThreadFrom(token, posts, net, i + 1, NextParent(net(i).body), calls + [call], results + [outcome.value])
  }

  /**
   * `create_thread(posts)`: posts each entry in turn, the first with a null
   * parent and every later one as a reply to the post created just before it;
   * `net(k)` is the server's reply to the k-th `create_post`.
   */
  function Thread(token: Option<string>, posts: seq<string>, net: nat -> Reply): (Result<seq<Obj>, Failure>, seq<PostCall>)
  {
    if posts == [] then (Err(EmptyThread), []) else ThreadFrom(token, posts, net, 0, JNull, [], [])
  }

  /** The calls made from post `i` on carry the thread's contents, and never more calls than posts. */
  lemma {:induction false} ThreadFromContents(token: Option<string>, posts: seq<string>, net: nat -> Reply, i: nat,
                                              parent: Json, calls: seq<PostCall>, results: seq<Obj>)
    requires i <= |posts| && |calls| == i
    requires forall k :: 0 <= k < i ==> calls[k].content == ThreadContent(posts, k)
    ensures var cs := ThreadFrom(token, posts, net, i, parent, calls, results).1;
      i <= |cs| <= |posts| && cs[..i] == calls && forall k :: 0 <= k < |cs| ==> cs[k].content == ThreadContent(posts, k)
    decreases |posts| - i
  {
    if i < |posts| {
      var call := PostCall(ThreadContent(posts, i), parent);
      ContentsExtend(posts, calls, call);
      var outcome := CallOutcome(token, call, net(i));
      if outcome.Ok? {
        var cs := ThreadFrom(token, posts, net, i + 1, NextParent(net(i).body), calls + [call], results + [outcome.value]).1;
        ThreadFromContents(token, posts, net, i + 1, NextParent(net(i).body), calls + [call], results + [outcome.value]);
        assert cs[..i] == (cs[..i + 1])[..i];
      }
    }
  }

  /** From post `i` on, each call answers the one before it, which was accepted. */
  lemma {:induction false} ThreadFromChain(token: Option<string>, posts: seq<string>, net: nat -> Reply, i: nat,
                                           parent: Json, calls: seq<PostCall>, results: seq<Obj>)
    requires i <= |posts| && |calls| == i
    requires forall k :: 0 < k < i ==> Chained(token, calls, net, k)
    requires i == 0 ==> parent == JNull
    requires i > 0 ==> calls[0].parentId == JNull
    requires i > 0 ==> CallOutcome(token, calls[i - 1], net(i - 1)).Ok? && parent == NextParent(net(i - 1).body)
    ensures var cs := ThreadFrom(token, posts, net, i, parent, calls, results).1;
      (|cs| > 0 ==> cs[0].parentId == JNull) && forall k :: 0 < k < |cs| ==> Chained(token, cs, net, k)
    decreases |posts| - i
  {
    if i < |posts| {
      var call := PostCall(ThreadContent(posts, i), parent);
      ChainExtends(token, calls, net, call);
      var outcome := CallOutcome(token, call, net(i));
      if outcome.Ok? {
        ThreadFromChain(token, posts, net, i + 1, NextParent(net(i).body), calls + [call], results + [outcome.value]);
      }
    }
  }

  /** From post `i` on, a successful thread has one accepted result per post, in order. */
  lemma {:induction false} ThreadFromOutcome(token: Option<string>, posts: seq<string>, net: nat -> Reply, i: nat,
                                             parent: Json, calls: seq<PostCall>, results: seq<Obj>)
    requires i <= |posts| && |calls| == i && |results| == i
    requires forall k :: 0 <= k < i ==> AcceptedAt(token, calls, net, results, k)
    ensures var (r, cs) := ThreadFrom(token, posts, net, i, parent, calls, results);
      r.Ok? ==> |cs| == |posts| && |r.value| == |posts| && forall k :: 0 <= k < |posts| ==> AcceptedAt(token, cs, net, r.value, k)
    decreases |posts| - i
  {
    if i < |posts| {
      var call := PostCall(ThreadContent(posts, i), parent);
      var outcome := CallOutcome(token, call, net(i));
      if outcome.Ok? {
        AcceptedExtend(token, calls, net, results, call, outcome.value);
        ThreadFromOutcome(token, posts, net, i + 1, NextParent(net(i).body), calls + [call], results + [outcome.value]);
      }
    }
  }

  /** From post `i` on, a failed thread fails with the error of the last call it made. */
  lemma {:induction false} ThreadFromFailure(token: Option<string>, posts: seq<string>, net: nat -> Reply, i: nat,
                                             parent: Json, calls: seq<PostCall>, results: seq<Obj>)
    requires i <= |posts| && |calls| == i
    ensures var (r, cs) := ThreadFrom(token, posts, net, i, parent, calls, results);
      r.Err? ==> i < |cs| && CallOutcome(token, cs[|cs| - 1], net(|cs| - 1)) == Err(r.error)
    decreases |posts| - i
  {
    if i < |posts| {
      var call := PostCall(ThreadContent(posts, i), parent);
      var outcome := CallOutcome(token, call, net(i));
      if outcome.Ok? {
        var next := ThreadFrom(token, posts, net, i + 1, NextParent(net(i).body), calls + [call], results + [outcome.value]);
        assert ThreadFrom(token, posts, net, i, parent, calls, results) == next;
        ThreadFromFailure(token, posts, net, i + 1, NextParent(net(i).body), calls + [call], results + [outcome.value]);
      } else {
        assert (calls + [call])[i] == call;
      }
    }
  }

  /** Call `k` of a thread was accepted with the `k`-th result. */
  predicate AcceptedAt(token: Option<string>, calls: seq<PostCall>, net: nat -> Reply, results: seq<Obj>, k: nat)
    requires k < |calls| && k < |results|
  {
    CallOutcome(token, calls[k], net(k)) == Ok(results[k])
  }

  /** Appending an accepted call and its result keeps every call accepted with its own result. */
  lemma AcceptedExtend(token: Option<string>, calls: seq<PostCall>, net: nat -> Reply, results: seq<Obj>, call: PostCall, value: Obj)
    requires |calls| == |results|
    requires forall k :: 0 <= k < |calls| ==> AcceptedAt(token, calls, net, results, k)
    requires CallOutcome(token, call, net(|calls|)) == Ok(value)
    ensures forall k :: 0 <= k < |calls| + 1 ==> AcceptedAt(token, calls + [call], net, results + [value], k)
  {
    forall k | 0 <= k < |calls| + 1
      ensures AcceptedAt(token, calls + [call], net, results + [value], k)
    {
      if k < |calls| {
        assert AcceptedAt(token, calls, net, results, k);
        assert (calls + [call])[k] == calls[k] && (results + [value])[k] == results[k];
      } else {
        assert (calls + [call])[k] == call && (results + [value])[k] == value;
      }
    }
  }

  /**
   * The calls `create_thread` makes: none for an empty list, which raises;
   * post k is sent with the thread's content for k; the first has a null
   * parent and each later one replies to the post accepted just before it.
   */
  lemma ThreadCalls(token: Option<string>, posts: seq<string>, net: nat -> Reply)
    ensures var (r, calls) := Thread(token, posts, net);
      (posts == [] ==> r == Err(EmptyThread) && calls == []) &&
      |calls| <= |posts| &&
      (forall k :: 0 <= k < |calls| ==> calls[k].content == ThreadContent(posts, k)) &&
      (|calls| > 0 ==> calls[0].parentId == JNull) &&
      (forall k :: 0 < k < |calls| ==> Chained(token, calls, net, k))
  {
    if posts != [] {
      ThreadFromContents(token, posts, net, 0, JNull, [], []);
      ThreadFromChain(token, posts, net, 0, JNull, [], []);
    }
  }

  /**
   * What `create_thread` answers: on success the results are the accepted
   * bodies in input order, one per post, and a failure raises the error of the
   * last call with no partial list.
   */
  lemma ThreadOutcome(token: Option<string>, posts: seq<string>, net: nat -> Reply)
    ensures var (r, calls) := Thread(token, posts, net);
      (r.Ok? ==> |calls| == |posts| && |r.value| == |posts| && forall k :: 0 <= k < |posts| ==> AcceptedAt(token, calls, net, r.value, k)) &&
      (r.Err? && posts != [] ==> |calls| > 0 && CallOutcome(token, calls[|calls| - 1], net(|calls| - 1)) == Err(r.error))
  {
    if posts != [] {
      ThreadFromOutcome(token, posts, net, 0, JNull, [], []);
      ThreadFromFailure(token, posts, net, 0, JNull, [], []);
    }
  }

  /** `create_thread(posts)`, step by step; `calls` are the `create_post` calls made, in order. */
  method CreateThread(token: Option<string>, posts: seq<string>, net: nat -> Reply)
    returns (r: Result<seq<Obj>, Failure>, calls: seq<PostCall>)
    ensures (r, calls) == Thread(token, posts, net)
  {
    if posts == [] {
      return Err(EmptyThread), [];
    }
    var results: seq<Obj> := [];
    var parent := JNull;
    calls := [];
    var i := 0;
    while i < |posts|
      invariant 0 <= i <= |posts|
      invariant ThreadFrom(token, posts, net, i, parent, calls, results) == Thread(token, posts, net)
    {
      var call := PostCall(ThreadContent(posts, i), parent);
      var outcome := CallOutcome(token, call, net(i));
      calls := calls + [call];
      if outcome.Err? {
        return Err(outcome.error), calls;
      }
      results := results + [outcome.value];
      parent := NextParent(net(i).body);
      i := i + 1;
    }
    r := Ok(results);
  }

  // ------------------------------------------------------------- bulk likes

  /** One entry of `results` in `bulk_like_posts`: status "success" with the result, or "failed" with the error. */
  datatype LikeRecord = LikeRecord(postId: int, outcome: Result<Obj, Failure>)

  /** The dictionary `bulk_like_posts` returns; `total` is absent for an empty input. */
  datatype BulkSummary = BulkSummary(success: nat, failed: nat, total: Option<nat>, results: seq<LikeRecord>)

  /** The number of "success" records. */
  function Successes(rs: seq<LikeRecord>): (n: nat)
    ensures n <= |rs|
  {
    if rs == [] then 0
    else Successes(rs[..|rs| - 1]) + (if rs[|rs| - 1].outcome.Ok? then 1 else 0)
  }

  /** The number of "failed" records. */
  function Failures(rs: seq<LikeRecord>): (n: nat)
    ensures n <= |rs|
  {
    if rs == [] then 0
    else Failures(rs[..|rs| - 1]) + (if rs[|rs| - 1].outcome.Err? then 1 else 0)
  }

  /** Every record is counted exactly once. */
  lemma {:induction false} SuccessesPlusFailures(rs: seq<LikeRecord>)
    ensures Successes(rs) + Failures(rs) == |rs|
  {
    if rs != [] {
      SuccessesPlusFailures(rs[..|rs| - 1]);
    }
  }

  /**
   * `bulk_like_posts(post_ids)`: likes each id in turn (`net(k)` answers the
   * k-th like) and records one result per id, in input order, whatever happened.
   */
  method BulkLikePosts(token: Option<string>, postIds: seq<int>, net: nat -> Reply) returns (s: BulkSummary)
    ensures postIds == [] ==> s == BulkSummary(0, 0, None, [])
    ensures postIds != [] ==> s.total == Some(|postIds|)
    ensures |s.results| == |postIds|
    ensures forall k :: 0 <= k < |postIds| ==>
              s.results[k] == LikeRecord(postIds[k], ActionOutcome(Like, token, postIds[k], net(k)))
    ensures s.success == Successes(s.results) && s.failed == Failures(s.results)
    ensures s.success + s.failed == |postIds|
  {
    if postIds == [] {
      return BulkSummary(0, 0, None, []);
    }
    var results: seq<LikeRecord> := [];
    var successCount, failedCount := 0, 0;
    for i := 0 to |postIds|
      invariant |results| == i
      invariant forall k :: 0 <= k < i ==> results[k] == LikeRecord(postIds[k], ActionOutcome(Like, token, postIds[k], net(k)))
      invariant successCount == Successes(results) && failedCount == Failures(results)
    {
      var outcome := ActionOutcome(Like, token, postIds[i], net(i));
      var prev := results;
      results := results + [LikeRecord(postIds[i], outcome)];
      assert results[..|results| - 1] == prev;
      if outcome.Ok? {
        successCount := successCount + 1;
      } else {
        failedCount := failedCount + 1;
      }
    }
    SuccessesPlusFailures(results);
    s := BulkSummary(successCount, failedCount, Some(|postIds|), results);
  }
}
