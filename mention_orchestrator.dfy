/**
 * Replies to posts that mention the candidate: the bounded retry around
 * posting a reply, the hashtags carried over from the original post, and the
 * 255-character limit on the reply. Extraction, the language model and the
 * posting call are oracles.
 */
module MentionOrchestrator {
  import opened Wrappers
  import opened Text
  import opened Json
  import opened Attempts

  const MAX_RETRIES: nat := 3
  const BASE_DELAY: nat := 30
  const POST_LIMIT: nat := 255

  /**
   * `reply_to_post`: attempt `k` of the posting call answers `attempts(k)`.
   * Returns whether the reply was posted and the backoff sleeps taken.
   */
  method ReplyToPost(attempts: nat -> Attempt) returns (ok: bool, sleeps: seq<nat>)
    ensures ok <==> ReplySucceeds(attempts)
    ensures sleeps == Backoff(BASE_DELAY, Min(Settled(attempts, RateLimited, 0, MAX_RETRIES), MAX_RETRIES - 1))
  {
    sleeps := [];
    for attempt := 0 to MAX_RETRIES
      invariant forall j :: 0 <= j < attempt ==> RateLimited(attempts(j))
      invariant sleeps == Backoff(BASE_DELAY, Min(attempt, MAX_RETRIES - 1))
    {
      match attempts(attempt)
      case Returned(result) =>
        return ReplyAccepted(result), sleeps;
      case Raised(message) =>
        if IsRateLimitError(message) {
          if attempt < MAX_RETRIES - 1 {
            sleeps := sleeps + [BASE_DELAY * Pow2(attempt)];
            continue;
          } else {
            return false, sleeps;
          }
        } else {
          return false, sleeps;
        }
    }
    ok := false;
  }

  /** The schedule is 30 s then 60 s at most: three rate limits in a row end the loop without a third sleep. */
  lemma ReplySleepsBounded(attempts: nat -> Attempt)
    ensures Backoff(BASE_DELAY, Min(Settled(attempts, RateLimited, 0, MAX_RETRIES), MAX_RETRIES - 1)) <= [30, 60]
  {
    var b := Backoff(BASE_DELAY, Min(Settled(attempts, RateLimited, 0, MAX_RETRIES), MAX_RETRIES - 1));
    assert Pow2(1) == 2;
    assert forall i :: 0 <= i < |b| ==> b[i] == [30, 60][i];
  }

  /** The tags of the original post: `#` and the name, for each non-empty name, in order. */
  function OriginalTags(names: seq<string>): (tags: seq<string>)
    ensures |tags| <= |names|
  {
    if names == [] then []
    else (if names[|names| - 1] != "" then OriginalTags(names[..|names| - 1]) + ["#" + names[|names| - 1]]
          else OriginalTags(names[..|names| - 1]))
  }

  /**
   * Each tag is `#` followed by a non-empty name of the original post, and
   * every non-empty name gives its tag, empty names among them or not.
   */
  lemma {:induction false} OriginalTagsShape(names: seq<string>)
    ensures forall t :: t in OriginalTags(names) ==> |t| >= 2 && t[0] == '#' && t[1..] in names
    ensures forall n :: n in names && n != "" ==> "#" + n in OriginalTags(names)
    ensures (forall n :: n in names ==> n != "") ==> |OriginalTags(names)| == |names|
  {
    if names != [] {
      var init := names[..|names| - 1];
      var last := names[|names| - 1];
      OriginalTagsShape(init);
      assert forall n :: n in init ==> n in names;
      assert last in names;
      assert names == init + [last];
      forall n | n in names && n != ""
        ensures "#" + n in OriginalTags(names)
      {
        if n != last {
          assert n in init;
        }
      }
    }
  }

  /**
   * The tags keep the order of the names: the tags of two runs of names are
   * the tags of the first run followed by those of the second.
   */
  lemma {:induction false} OriginalTagsAppend(names: seq<string>, more: seq<string>)
    ensures OriginalTags(names + more) == OriginalTags(names) + OriginalTags(more)
    decreases |more|
  {
    if more == [] {
      assert names + more == names;
    } else {
      var init := more[..|more| - 1];
      OriginalTagsAppend(names, init);
      assert (names + more)[..|names + more| - 1] == names + init;
    }
  }

  /** The tags of a single name: its tag when the name is not empty, nothing otherwise. */
  lemma OriginalTagsOfOne(name: string)
    ensures OriginalTags([name]) == if name != "" then ["#" + name] else []
  {
    assert [name][..0] == [];
  }

  /** The tag-collecting loop over the post's tag names. */
  method ExtractTags(names: seq<string>) returns (tags: seq<string>)
    ensures tags == OriginalTags(names)
  {
    tags := [];
    for i := 0 to |names|
      invariant tags == OriginalTags(names[..i])
    {
      assert names[..i + 1][..i] == names[..i];
      if names[i] != "" {
        tags := tags + ["#" + names[i]];
      }
    }
    assert names[..|names|] == names;
  }

  /** One step of the tag loop: append ` tag` when the tag is missing and the result still fits. */
  function AddTag(reply: string, tag: string): (r: string)
    ensures StartsWith(r, reply)
    ensures |r| <= |reply| + |tag| + 1
    ensures |reply| <= POST_LIMIT ==> |r| <= POST_LIMIT
    ensures Contains(reply, tag) || |reply| + 1 + |tag| > POST_LIMIT ==> r == reply
    ensures !Contains(reply, tag) && |reply| + 1 + |tag| <= POST_LIMIT ==> r == reply + " " + tag
  {
    if !Contains(reply, tag) && |reply + " " + tag| <= POST_LIMIT then reply + " " + tag else reply
  }

  /** The reply after the tag loop, tags taken in order. */
  function WithTags(reply: string, tags: seq<string>): string
    decreases |tags|
  {
    if tags == [] then reply else WithTags(AddTag(reply, tags[0]), tags[1..])
  }

  /** The tag loop, reassigning the reply once per tag. */
  method AppendTags(reply: string, tags: seq<string>) returns (r: string)
    ensures r == WithTags(reply, tags)
  {
    r := reply;
    for i := 0 to |tags|
      invariant WithTags(r, tags[i..]) == WithTags(reply, tags)
    {
      assert tags[i..][1..] == tags[i + 1..];
      r := AddTag(r, tags[i]);
    }
    assert tags[|tags|..] == [];
  }

  /** The sum of the lengths of the tags, each with its separating space. */
  function TagsLength(tags: seq<string>): nat
  {
    if tags == [] then 0 else |tags[0]| + 1 + TagsLength(tags[1..])
  }

  /** The tag loop keeps the generated reply as a prefix and grows it by at most the tags and their spaces. */
  lemma {:induction false} WithTagsBounds(reply: string, tags: seq<string>)
    ensures StartsWith(WithTags(reply, tags), reply)
    ensures |WithTags(reply, tags)| <= |reply| + TagsLength(tags)
    ensures |reply| <= POST_LIMIT ==> |WithTags(reply, tags)| <= POST_LIMIT
    decreases |tags|
  {
    if tags != [] {
      var next := AddTag(reply, tags[0]);
      WithTagsBounds(next, tags[1..]);
      assert StartsWith(WithTags(reply, tags), next);
    }
  }

  /** When every tag fits after the reply, every tag ends up in it. */
  lemma {:induction false} WithTagsKeepsAll(reply: string, tags: seq<string>)
    requires |reply| + TagsLength(tags) <= POST_LIMIT
    ensures forall t :: t in tags ==> Contains(WithTags(reply, tags), t)
    decreases |tags|
  {
    if tags != [] {
      var next := AddTag(reply, tags[0]);
      var r := WithTags(reply, tags);
      WithTagsBounds(next, tags[1..]);
      WithTagsKeepsAll(next, tags[1..]);
      if !Contains(reply, tags[0]) {
        ContainsInfix(reply + " ", tags[0], "");
        assert reply + " " + tags[0] + "" == next;
      }
      assert Contains(next, tags[0]);
      assert r == next + r[|next|..];
      ContainsExtend(next, tags[0], r[|next|..]);
    }
  }

  /**
   * The tag loop keeps the generated reply as a prefix and never makes a
   * reply within the limit exceed it; when every tag fits, every tag ends up
   * in the reply.
   */
  lemma WithTagsProperties(reply: string, tags: seq<string>)
    ensures StartsWith(WithTags(reply, tags), reply)
    ensures |WithTags(reply, tags)| <= |reply| + TagsLength(tags)
    ensures |reply| <= POST_LIMIT ==> |WithTags(reply, tags)| <= POST_LIMIT
    ensures |reply| + TagsLength(tags) <= POST_LIMIT ==>
      forall t :: t in tags ==> Contains(WithTags(reply, tags), t)
  {
    WithTagsBounds(reply, tags);
    if |reply| + TagsLength(tags) <= POST_LIMIT {
      WithTagsKeepsAll(reply, tags);
    }
  }

  /** The reply finally posted: the tag loop, then the 255-character fit. */
  function FinalReply(reply: string, names: seq<string>): (r: string)
    ensures |r| <= POST_LIMIT
  {
    FitPost(WithTags(reply, OriginalTags(names)))
  }

  /**
   * A generated reply within the limit is posted as is, with the missing tags
   * after it: the 255-character fit never cuts it, and when every tag fits,
   * every non-empty name of the original post is in it as a tag.
   */
  lemma FinalReplyKeepsReply(reply: string, names: seq<string>)
    requires |reply| <= POST_LIMIT
    ensures FinalReply(reply, names) == WithTags(reply, OriginalTags(names))
    ensures StartsWith(FinalReply(reply, names), reply)
    ensures |reply| + TagsLength(OriginalTags(names)) <= POST_LIMIT ==>
      forall n :: n in names && n != "" ==> Contains(FinalReply(reply, names), "#" + n)
  {
    WithTagsProperties(reply, OriginalTags(names));
    OriginalTagsShape(names);
  }

  /** `mentions[:max_mentions] if max_mentions else mentions`. */
  function MentionsToProcess<T>(mentions: seq<T>, maxMentions: Option<int>): (r: seq<T>)
    ensures |r| <= |mentions| && r == mentions[..|r|]
    ensures maxMentions.None? || maxMentions.value == 0 ==> r == mentions
    ensures maxMentions.Some? && maxMentions.value > 0 ==> |r| == Min(maxMentions.value, |mentions|)
    ensures maxMentions.Some? && maxMentions.value < 0 ==> |r| == Max(|mentions| + maxMentions.value, 0)
  {
    if maxMentions.Some? && maxMentions.value != 0 then Take(mentions, maxMentions.value) else mentions
  }
}
