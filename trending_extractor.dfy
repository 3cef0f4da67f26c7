/**
 * Discovery of trending hashtags relevant to the campaign and of the posts
 * under each. The trending list and the hashtag search are oracles; the
 * extractor's own decisions (authentication guards, the `#` prefix, the
 * relevance filter and the per-hashtag bookkeeping) are modelled.
 */
module TrendingExtractor {
  import opened Wrappers
  import opened Text
  import opened Json
  import TrendPostingManager

  /** A trending hashtag; a missing name reads as "". */
  datatype Tag = Tag(name: string)

  const AUTH_REQUIRED := "\U{274C} Authentication required to get trending hashtags"
  const NOT_LOGGED_IN := "\U{274C} Not authenticated. Please login first."

  const CAMPAIGN_KEYWORDS: seq<string> := [
    "politics", "election", "vote", "democracy", "government", "policy",
    "education", "climate", "fairness", "justice", "equality", "rights",
    "worker", "union", "healthcare", "housing", "economy", "tax",
    "kingston", "hawthorne", "campaign", "president", "candidate",
    "progressive", "reform", "change", "future", "community"]

  /** A hashtag is relevant when its lower-cased name contains one of the keywords. */
  predicate IsRelevant(name: string, keywords: seq<string>)
  {
    ContainsAny(Lower(name), keywords)
  }

  lemma {:induction false} NoKeywordInEmpty(keywords: seq<string>)
    requires forall i :: 0 <= i < |keywords| ==> keywords[i] != ""
    ensures !ContainsAny("", keywords)
    decreases |keywords|
  {
    if keywords != [] {
      NoKeywordInEmpty(keywords[1..]);
    }
  }

  /** No campaign keyword is empty, so a hashtag without a name is never relevant. */
  lemma EmptyNameIrrelevant()
    ensures !IsRelevant("", CAMPAIGN_KEYWORDS)
  {
    assert Lower("") == "";
    NoKeywordInEmpty(CAMPAIGN_KEYWORDS);
  }

  /** The hashtags relevant to the keywords, in their original order. */
  function RelevantTags(tags: seq<Tag>, keywords: seq<string>): (r: seq<Tag>)
    ensures |r| <= |tags|
  {
    if tags == [] then []
    else
      var init := RelevantTags(tags[..|tags| - 1], keywords);
      if IsRelevant(tags[|tags| - 1].name, keywords) then init + [tags[|tags| - 1]] else init
  }

  /** Filtering distributes over concatenation: the order of the input is kept. */
  lemma {:induction false} RelevantTagsAppend(a: seq<Tag>, b: seq<Tag>, keywords: seq<string>)
    ensures RelevantTags(a + b, keywords) == RelevantTags(a, keywords) + RelevantTags(b, keywords)
    decreases |b|
  {
    if b == [] {
      assert a + b == a;
    } else {
      var b' := b[..|b| - 1];
      assert (a + b)[..|a + b| - 1] == a + b';
      assert (a + b)[|a + b| - 1] == b[|b| - 1];
      RelevantTagsAppend(a, b', keywords);
    }
  }

  /** Exactly the relevant hashtags of the input are kept. */
  lemma {:induction false} RelevantTagsMembers(tags: seq<Tag>, keywords: seq<string>)
    ensures forall t :: t in RelevantTags(tags, keywords) <==> t in tags && IsRelevant(t.name, keywords)
    decreases |tags|
  {
    if tags != [] {
      var init := tags[..|tags| - 1];
      RelevantTagsMembers(init, keywords);
      assert tags == init + [tags[|tags| - 1]];
    }
  }

  /** Every hashtag the campaign filter keeps has a name. */
  lemma RelevantNamesNonEmpty(tags: seq<Tag>)
    ensures var r := RelevantTags(tags, CAMPAIGN_KEYWORDS); forall i :: 0 <= i < |r| ==> r[i].name != ""
  {
    RelevantTagsMembers(tags, CAMPAIGN_KEYWORDS);
    EmptyNameIrrelevant();
    var r := RelevantTags(tags, CAMPAIGN_KEYWORDS);
    forall i | 0 <= i < |r|
      ensures r[i].name != ""
    {
      assert r[i] in r;
    }
  }

  /** `filter_campaign_relevant_hashtags`: the loop that appends each relevant hashtag. */
  method FilterCampaignRelevantHashtags(tags: seq<Tag>) returns (relevant: seq<Tag>)
    ensures relevant == RelevantTags(tags, CAMPAIGN_KEYWORDS)
  {
    relevant := [];
    for i := 0 to |tags|
      invariant relevant == RelevantTags(tags[..i], CAMPAIGN_KEYWORDS)
    {
      assert tags[..i + 1][..i] == tags[..i];
      if IsRelevant(tags[i].name, CAMPAIGN_KEYWORDS) {
        relevant := relevant + [tags[i]];
      }
    }
    assert tags[..|tags|] == tags;
  }

  /** `get_trending_hashtags`: refused without a session; otherwise what the server gave, or its error. */
  function GetTrendingHashtags(authenticated: bool, fetched: Result<seq<Tag>, string>): (r: Result<seq<Tag>, string>)
    ensures !authenticated ==> r == Err(AUTH_REQUIRED)
    ensures authenticated ==> r == fetched
  {
    if !authenticated then Err(AUTH_REQUIRED) else fetched
  }

  /**
   * The posts the search returns for a hashtag: the `data` member of the
   * response as it is, whenever `len` accepts it (a list, but also a string or
   * an object); an empty list when it is missing, when `len` raises on it, or
   * when the search raised. The query the server sees is the tag with its
   * `#`, added once whether or not the caller wrote it.
   */
  function PostsFor(search: string -> Result<Obj, string>, hashtag: string): (posts: Json)
    ensures HasLen(posts)
    ensures search(TrendPostingManager.NormalizeHashtag(hashtag)).Err? ==> posts == JList([])
    ensures var reply := search(TrendPostingManager.NormalizeHashtag(hashtag));
      reply.Ok? && "data" in reply.value && HasLen(reply.value["data"]) ==> posts == reply.value["data"]
    ensures var reply := search(TrendPostingManager.NormalizeHashtag(hashtag));
      reply.Ok? && !("data" in reply.value && HasLen(reply.value["data"])) ==> posts == JList([])
  {
    match search(TrendPostingManager.NormalizeHashtag(hashtag))
    case Err(_) => JList([])
    case Ok(body) =>
      var data := GetOr(body, "data", JList([]));
      if HasLen(data) then data else JList([])
  }

  /**
   * `get_posts_by_hashtag`: raises without a posting manager; otherwise the
   * extractor adds a missing `#` and the posting manager's own prefixing then
   * changes nothing, so the query is the tag with exactly one leading `#` added
   * when it had none.
   */
  function GetPostsByHashtag(hasPostingManager: bool, hashtag: string, search: string -> Result<Obj, string>)
    : (r: Result<Json, string>)
    ensures !hasPostingManager ==> r == Err(NOT_LOGGED_IN)
    ensures hasPostingManager ==> r == Ok(PostsFor(search, hashtag))
  {
    if !hasPostingManager then Err(NOT_LOGGED_IN)
    else
      var query := TrendPostingManager.NormalizeHashtag(hashtag);
      TrendPostingManager.NormalizeHashtagIdempotent(hashtag);
      Ok(PostsFor(search, query))
  }

  /** The `(name, posts)` pairs recorded for the tags: non-empty names whose search found posts, in order. */
  function Recorded(tags: seq<Tag>, search: string -> Result<Obj, string>): seq<(string, Json)>
  {
    if tags == [] then []
    else
      var init := Recorded(tags[..|tags| - 1], search);
      var name := tags[|tags| - 1].name;
      if name != "" && Truthy(PostsFor(search, name)) then init + [(name, PostsFor(search, name))] else init
  }

  /** The dictionary the pairs build, a later pair overwriting an earlier one with the same name. */
  function MapOf(pairs: seq<(string, Json)>): map<string, Json>
  {
    if pairs == [] then map[]
    else MapOf(pairs[..|pairs| - 1])[pairs[|pairs| - 1].0 := pairs[|pairs| - 1].1]
  }

  /**
   * The running `total_posts`: the `len` of every recorded value, each time
   * one is recorded (every recorded value has one).
   */
  function TotalLength(pairs: seq<(string, Json)>): nat
  {
    if pairs == [] then 0 else TotalLength(pairs[..|pairs| - 1]) + (if HasLen(pairs[|pairs| - 1].1) then Len(pairs[|pairs| - 1].1) else 0)
  }

  /**
   * The dictionary holds a hashtag exactly when some tag of that non-empty
   * name found posts, and then holds those posts.
   */
  lemma {:induction false} RecordedMap(tags: seq<Tag>, search: string -> Result<Obj, string>)
    ensures forall k :: k in MapOf(Recorded(tags, search)) <==>
      k != "" && Truthy(PostsFor(search, k)) && exists t :: t in tags && t.name == k
    ensures forall k :: k in MapOf(Recorded(tags, search)) ==> MapOf(Recorded(tags, search))[k] == PostsFor(search, k)
    decreases |tags|
  {
    if tags != [] {
      var init := tags[..|tags| - 1];
      RecordedMap(init, search);
      assert tags == init + [tags[|tags| - 1]];
      forall k | k != "" && Truthy(PostsFor(search, k)) && (exists t :: t in tags && t.name == k)
        ensures k in MapOf(Recorded(tags, search))
      {
        var t :| t in tags && t.name == k;
        if t !in init {
          assert t == tags[|tags| - 1];
        }
      }
    }
  }

  /** With distinct names, each recorded pair has its own key: nothing recorded is overwritten. */
  lemma {:induction false} DistinctNamesKeepEveryPair(tags: seq<Tag>, search: string -> Result<Obj, string>)
    requires forall i, j :: 0 <= i < j < |tags| ==> tags[i].name != tags[j].name
    ensures |MapOf(Recorded(tags, search)).Keys| == |Recorded(tags, search)|
    decreases |tags|
  {
    if tags != [] {
      var init := tags[..|tags| - 1];
      var last := tags[|tags| - 1];
      DistinctNamesKeepEveryPair(init, search);
      RecordedMap(init, search);
      forall t | t in init
        ensures t.name != last.name
      {
        var i :| 0 <= i < |init| && init[i] == t;
        assert tags[i] == t;
      }
      var m := MapOf(Recorded(init, search));
      assert last.name !in m;
      assert m[last.name := PostsFor(search, last.name)].Keys == m.Keys + {last.name};
    }
  }

  /** A hashtag listed twice is stored once but its posts are counted twice in the total. */
  lemma DuplicateHashtagCountedTwice(name: string, search: string -> Result<Obj, string>)
    requires name != "" && Truthy(PostsFor(search, name))
    ensures var pairs := Recorded([Tag(name), Tag(name)], search);
      && MapOf(pairs) == map[name := PostsFor(search, name)]
      && TotalLength(pairs) == 2 * Len(PostsFor(search, name))
  {
    var tags := [Tag(name), Tag(name)];
    assert tags[..1] == [Tag(name)];
    assert tags[..1][..0] == [];
    var one := [(name, PostsFor(search, name))];
    assert Recorded(tags[..1], search) == one;
    assert one[..0] == [];
    assert (one + one)[..1] == one;
    assert Recorded(tags, search) == one + one;
    assert TotalLength(one) == Len(PostsFor(search, name));
    assert MapOf(one) == map[name := PostsFor(search, name)];
  }

  /**
   * `get_trending_posts_with_hashtags`: every trending hashtag with a name is
   * searched and recorded when it has posts. Any error yields what was
   * recorded so far, which is nothing when the hashtags could not be fetched
   * or there is no posting manager.
   */
  method GetTrendingPostsWithHashtags(
    authenticated: bool, hasPostingManager: bool,
    fetched: Result<seq<Tag>, string>, search: string -> Result<Obj, string>)
    returns (r: map<string, Json>)
    ensures !(authenticated && fetched.Ok? && hasPostingManager) ==> r == map[]
    ensures authenticated && fetched.Ok? && hasPostingManager ==> r == MapOf(Recorded(fetched.value, search))
  {
    r := map[];
    var trending := GetTrendingHashtags(authenticated, fetched);
    if trending.Err? || trending.value == [] {
      return;
    }
    var tags := trending.value;
    for i := 0 to |tags|
      invariant hasPostingManager ==> r == MapOf(Recorded(tags[..i], search))
      invariant !hasPostingManager ==> r == map[]
    {
      assert tags[..i + 1][..i] == tags[..i];
      var name := tags[i].name;
      if name == "" {
        continue;
      }
      var posts := GetPostsByHashtag(hasPostingManager, name, search);
      if posts.Err? {
        return;
      }
      if Truthy(posts.value) {
        r := r[name := posts.value];
      }
    }
    assert tags[..|tags|] == tags;
  }

  /**
   * The loop of `get_campaign_trending_content` over hashtags that all have a
   * name: the dictionary and the running total, or nothing when the first
   * search raises for want of a posting manager.
   */
  method CollectHashtagPosts(relevant: seq<Tag>, hasPostingManager: bool, search: string -> Result<Obj, string>)
    returns (r: Option<(map<string, Json>, nat)>)
    requires forall i :: 0 <= i < |relevant| ==> relevant[i].name != ""
    ensures hasPostingManager ==> r == Some((MapOf(Recorded(relevant, search)), TotalLength(Recorded(relevant, search))))
    ensures !hasPostingManager && relevant != [] ==> r.None?
  {
    var hashtagPosts := map[];
    var totalPosts := 0;
    for i := 0 to |relevant|
      invariant hashtagPosts == MapOf(Recorded(relevant[..i], search))
      invariant totalPosts == TotalLength(Recorded(relevant[..i], search))
      invariant !hasPostingManager ==> i == 0
    {
      var name := relevant[i].name;
      var posts := GetPostsByHashtag(hasPostingManager, name, search);
      if posts.Err? {
        return None;
      }
      RecordedStep(relevant, search, i);
      if Truthy(posts.value) {
        hashtagPosts := hashtagPosts[name := posts.value];
        totalPosts := totalPosts + Len(posts.value);
      }
    }
    assert relevant[..|relevant|] == relevant;
    return Some((hashtagPosts, totalPosts));
  }

  /** One more named tag: its posts are recorded, and counted, exactly when there are some. */
  lemma RecordedStep(tags: seq<Tag>, search: string -> Result<Obj, string>, i: nat)
    requires i < |tags| && tags[i].name != ""
    ensures Truthy(PostsFor(search, tags[i].name)) ==>
      MapOf(Recorded(tags[..i + 1], search)) == MapOf(Recorded(tags[..i], search))[tags[i].name := PostsFor(search, tags[i].name)]
      && TotalLength(Recorded(tags[..i + 1], search)) == TotalLength(Recorded(tags[..i], search)) + Len(PostsFor(search, tags[i].name))
    ensures !Truthy(PostsFor(search, tags[i].name)) ==> Recorded(tags[..i + 1], search) == Recorded(tags[..i], search)
  {
    assert tags[..i + 1][..i] == tags[..i];
    var init := Recorded(tags[..i], search);
    var pair := (tags[i].name, PostsFor(search, tags[i].name));
    if Truthy(pair.1) {
      assert Recorded(tags[..i + 1], search) == init + [pair];
      assert (init + [pair])[..|init|] == init;
    }
  }

  /** The structure `get_campaign_trending_content` returns. */
  datatype CampaignContent = CampaignContent(
    relevantHashtags: seq<Tag>,
    hashtagPosts: map<string, Json>,
    totalPosts: nat)

  const NO_CONTENT := CampaignContent([], map[], 0)

  /**
   * `get_campaign_trending_content`: the relevant hashtags, their posts and
   * the running total; the empty structure when nothing is relevant or on any
   * error.
   */
  method GetCampaignTrendingContent(
    authenticated: bool, hasPostingManager: bool,
    fetched: Result<seq<Tag>, string>, search: string -> Result<Obj, string>)
    returns (c: CampaignContent)
    ensures !(authenticated && fetched.Ok? && hasPostingManager) ==> c == NO_CONTENT
    ensures authenticated && fetched.Ok? && hasPostingManager ==>
      var relevant := RelevantTags(fetched.value, CAMPAIGN_KEYWORDS);
      c == (if relevant == [] then NO_CONTENT
            else CampaignContent(relevant, MapOf(Recorded(relevant, search)), TotalLength(Recorded(relevant, search))))
  {
    var all := GetTrendingHashtags(authenticated, fetched);
    if all.Err? {
      return NO_CONTENT;
    }
    var relevant := FilterCampaignRelevantHashtags(all.value);
    if relevant == [] {
      return NO_CONTENT;
    }
    RelevantNamesNonEmpty(all.value);
    var collected := CollectHashtagPosts(relevant, hasPostingManager, search);
    if collected.None? {
      return NO_CONTENT;
    }
    c := CampaignContent(relevant, collected.value.0, collected.value.1);
  }
}
