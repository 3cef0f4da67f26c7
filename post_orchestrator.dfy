/**
 * The campaign posting workflow: prompts built from press releases and
 * trending posts, one generated post per article, and publication of each
 * generated post under a bounded retry on rate limiting. The language model,
 * the crawler, the feed and the posting call are oracles.
 */
module PostOrchestrator {
  import opened Wrappers
  import opened Text
  import opened Json
  import opened Attempts

  // ---------------------------------------------------------------------
  // Prompts
  // ---------------------------------------------------------------------

  /** A press release as the crawler reports it; each field may be absent. */
  datatype Article = Article(title: Option<string>, summary: Option<string>, content: Option<string>)

  /** A trending post: the author's username and the text, each possibly absent. */
  datatype TrendPost = TrendPost(author: Option<string>, content: Option<string>)

  const PROMPT_LIMIT: nat := 2000

  /** The campaign themes, concatenated without separators as the prompt builders do. */
  const THEMES := "\n\nVictor Hawthorne Campaign Themes:"
    + "- Free tertiary education and expanded vocational grants"
    + "- Progressive taxation for fairness"
    + "- Aggressive action on climate change"
    + "- Ending offshore drilling"
    + "- Strengthening worker protections"
    + "- Supporting renters' rights"

  function OrElse(s: Option<string>, default: string): (r: string)
    ensures s.Some? ==> r == s.value
    ensures s.None? ==> r == default
  {
    if s.Some? then s.value else default
  }

  /** `article.get('summary', article.get('content', ''))`: a present summary wins, even an empty one. */
  function SummaryOf(a: Article): string
  {
    if a.summary.Some? then a.summary.value else OrElse(a.content, "")
  }

  /** One numbered line per trending post, each text cut to 150 characters. */
  function TrendLines(posts: seq<TrendPost>, first: nat): string
    decreases |posts|
  {
    if posts == [] then ""
    else
      "\n" + NatToString(first) + ". @" + OrElse(posts[0].author, "Unknown") + ": "
      + Take(OrElse(posts[0].content, ""), 150) + TrendLines(posts[1..], first + 1)
  }

  /** The trending block shared by both prompt builders: the first five posts, or a placeholder. */
  function TrendingSection(trending: seq<TrendPost>): string
  {
    "\n\nTrending Social Media Posts:"
    + (if |trending| > 0 then TrendLines(Take(trending, 5), 1) else "\nNo trending posts available.")
  }

  /** The cap on a prompt: more than 2000 characters keeps 2000 of them and gains "...". */
  function CapPrompt(s: string): (r: string)
    ensures |r| <= PROMPT_LIMIT + 3
    ensures |s| <= PROMPT_LIMIT ==> r == s
    ensures |s| > PROMPT_LIMIT ==> |r| == PROMPT_LIMIT + 3 && r[..PROMPT_LIMIT] == s[..PROMPT_LIMIT] && EndsWith(r, "...")
  {
    if |s| > PROMPT_LIMIT then s[..PROMPT_LIMIT] + "..." else s
  }

  /** `_prepare_content_for_ai_single_article`. */
  function SinglePrompt(a: Article, trending: seq<TrendPost>): (r: string)
    ensures |r| <= PROMPT_LIMIT + 3
  {
    CapPrompt(
      "Victor Hawthorne Press Release:"
      + "\nTitle: " + OrElse(a.title, "No title")
      + "Summary: " + Take(SummaryOf(a), 300)
      + TrendingSection(trending)
      + THEMES)
  }

  /** The numbered article block of the multi-article prompt: title, then the summary cut to 200 characters. */
  function ArticleLines(articles: seq<Article>, first: nat): string
    decreases |articles|
  {
    if articles == [] then ""
    else
      "\n" + NatToString(first) + ". " + OrElse(articles[0].title, "No title")
      + "   Summary: " + Take(SummaryOf(articles[0]), 200)
      + ArticleLines(articles[1..], first + 1)
  }

  /** `_prepare_content_for_ai`: at most three articles and five trending posts. */
  function MultiPrompt(articles: seq<Article>, trending: seq<TrendPost>): (r: string)
    ensures |r| <= PROMPT_LIMIT + 3
  {
    CapPrompt(
      "Victor Hawthorne Press Release Information:"
      + (if |articles| > 0 then ArticleLines(Take(articles, 3), 1) else "\nNo recent press releases available.")
      + TrendingSection(trending)
      + THEMES)
  }

  lemma TakeTwice<T>(s: seq<T>, n: nat)
    ensures Take(Take(s, n), n) == Take(s, n)
    ensures |Take(s, n)| > 0 <==> |s| > 0 && n > 0
  {
  }

  /** Trending posts after the fifth never reach the single-article prompt. */
  lemma SinglePromptUsesFirstFivePosts(a: Article, trending: seq<TrendPost>)
    ensures SinglePrompt(a, trending) == SinglePrompt(a, Take(trending, 5))
  {
    TakeTwice(trending, 5);
  }

  /** Only the first 300 characters of the summary reach the single-article prompt. */
  lemma SinglePromptUsesSummaryPrefix(a: Article, trending: seq<TrendPost>)
    ensures SinglePrompt(a, trending) == SinglePrompt(a.(summary := Some(Take(SummaryOf(a), 300))), trending)
  {
    TakeTwice(SummaryOf(a), 300);
  }

  /** Articles after the third and trending posts after the fifth never reach the multi-article prompt. */
  lemma MultiPromptUsesFirstThreeArticles(articles: seq<Article>, trending: seq<TrendPost>)
    ensures MultiPrompt(articles, trending) == MultiPrompt(Take(articles, 3), Take(trending, 5))
  {
    TakeTwice(articles, 3);
    TakeTwice(trending, 5);
  }

  // ---------------------------------------------------------------------
  // Content generation
  // ---------------------------------------------------------------------

  /** One entry of the generated list; `newsId` is absent only on the campaign fallback entry. */
  datatype GeneratedPost = GeneratedPost(
    content: string,
    newsTitle: string,
    newsId: Option<nat>,
    success: bool,
    error: Option<string>)

  const FALLBACK_MESSAGE := "\U{1F1FA}\U{1F1F8} Victor Hawthorne for President! Join the movement for fairness, opportunity, and a sustainable future. #VictorForPresident #FairnessForAll #ClimateAction"
  const FALLBACK_ENTRY := GeneratedPost(FALLBACK_MESSAGE, "Fallback Message", None, true, None)
  const NOT_GENERATED := "No content generated"

  /** The post that stands in for a failed generation: the title, cut to 100 characters, in a fixed frame. */
  function FallbackContent(a: Article): (r: string)
    ensures |r| <= 255
    ensures Contains(r, Take(OrElse(a.title, "Latest Update"), 100))
  {
    var title := Take(OrElse(a.title, "Latest Update"), 100);
    var prefix := "\U{1F1FA}\U{1F1F8} Victor Hawthorne: ";
    ContainsInfix(prefix, title, "... #VictorForPresident");
    prefix + title + "... #VictorForPresident"
  }

  /**
   * The entry for the `i`-th article (1-based) given what the generator did:
   * returned a text (`Ok`) or raised (`Err`).
   */
  function Entry(i: nat, a: Article, generated: Result<string, string>): (e: GeneratedPost)
    ensures e.newsId == Some(i) && e.newsTitle == OrElse(a.title, "Unknown")
    ensures e.success <==> generated.Ok? && generated.value != ""
    ensures e.success ==> e.content == generated.value && e.error.None?
    ensures !e.success ==> e.content == FallbackContent(a) && e.error.Some?
    ensures generated.Err? ==> e.error == Some(generated.error)
  {
    var title := OrElse(a.title, "Unknown");
    match generated
    case Ok(text) =>
      if text != "" then GeneratedPost(text, title, Some(i), true, None)
      else GeneratedPost(FallbackContent(a), title, Some(i), false, Some(NOT_GENERATED))
    case Err(message) => GeneratedPost(FallbackContent(a), title, Some(i), false, Some(message))
  }

  /**
   * `generate_social_content`: the `k`-th call of the generator (0-based)
   * answers `ai(k)`; `prompts` are the texts handed to it, in order.
   */
  method GenerateSocialContent(articles: seq<Article>, trending: seq<TrendPost>, ai: nat -> Result<string, string>)
    returns (posts: seq<GeneratedPost>, prompts: seq<string>)
    ensures articles == [] ==> posts == [FALLBACK_ENTRY] && prompts == []
    ensures articles != [] ==> |posts| == |articles| == |prompts|
    ensures forall k :: 0 <= k < |articles| ==> GeneratedAt(articles, trending, ai, posts, prompts, k)
  {
    if articles == [] {
      return [FALLBACK_ENTRY], [];
    }
    posts, prompts := [], [];
    for k := 0 to |articles|
      invariant |posts| == |prompts| == k
      invariant forall j :: 0 <= j < k ==> GeneratedAt(articles, trending, ai, posts, prompts, j)
    {
      var prompt := SinglePrompt(articles[k], trending);
      var entry := Entry(k + 1, articles[k], ai(k));
      GeneratedExtend(articles, trending, ai, posts, prompts, prompt, entry, k);
      prompts := prompts + [prompt];
      posts := posts + [entry];
    }
  }

  /** The `k`-th article was handed to the generator as its prompt and its entry reflects the `k`-th answer. */
  predicate GeneratedAt(articles: seq<Article>, trending: seq<TrendPost>, ai: nat -> Result<string, string>,
                        posts: seq<GeneratedPost>, prompts: seq<string>, k: nat)
  {
    k < |articles| && k < |posts| && k < |prompts| &&
    prompts[k] == SinglePrompt(articles[k], trending) && posts[k] == Entry(k + 1, articles[k], ai(k))
  }

  lemma GeneratedExtend(articles: seq<Article>, trending: seq<TrendPost>, ai: nat -> Result<string, string>,
                        posts: seq<GeneratedPost>, prompts: seq<string>, prompt: string, entry: GeneratedPost, k: nat)
    requires k < |articles| && |posts| == |prompts| == k
    requires forall j :: 0 <= j < k ==> GeneratedAt(articles, trending, ai, posts, prompts, j)
    requires prompt == SinglePrompt(articles[k], trending) && entry == Entry(k + 1, articles[k], ai(k))
    ensures forall j :: 0 <= j < k + 1 ==> GeneratedAt(articles, trending, ai, posts + [entry], prompts + [prompt], j)
  {
    forall j | 0 <= j < k + 1
      ensures GeneratedAt(articles, trending, ai, posts + [entry], prompts + [prompt], j)
    {
      if j < k {
        assert GeneratedAt(articles, trending, ai, posts, prompts, j);
      }
    }
  }

  /** Every generated entry is a post of at most 255 characters when the generator keeps to that limit. */
  lemma GeneratedPostsFit(articles: seq<Article>, ai: nat -> Result<string, string>, k: nat)
    requires k < |articles|
    requires ai(k).Ok? ==> |ai(k).value| <= 255
    ensures |Entry(k + 1, articles[k], ai(k)).content| <= 255
  {
  }

  // ---------------------------------------------------------------------
  // Publication
  // ---------------------------------------------------------------------

  /** What one posting attempt leads to inside the retry loop. */
  datatype Step =
    | Posted(postId: Json, response: Obj)   // a record of success, and the loop ends
    | Stop                                   // no response or an unrecognised one: the loop ends with no record
    | Fail(message: string)                  // the attempt raised: retried if a rate limit, else recorded

  /**
   * How the loop reads one attempt: a success flag, else an `id`, else a
   * `data.id`. A `.get` on a `data` that is not a dict raises inside the same
   * `try`, so it becomes a failure like any other exception.
   */
  function AttemptStep(a: Attempt): (s: Step)
    ensures a.Raised? ==> s == Fail(a.message)
    ensures a.Returned? && !TruthyObj(a.result) ==> s == Stop
    ensures s.Posted? ==> a.Returned? && TruthyObj(a.result)
  {
    match a
    case Raised(message) => Fail(message)
    case Returned(result) =>
      var data := GetOr(result, "data", JObj(map[]));
      if !TruthyObj(result) then Stop
      else if Truthy(Get(result, "success")) then
        if data.JObj? then Posted(GetOr(data.fields, "id", JStr("Unknown")), result) else Fail(NO_GET)
      else if Truthy(Get(result, "id")) then
        Posted(result["id"], map["success" := JBool(true), "data" := JObj(result)])
      else if !data.JObj? then Fail(NO_GET)
      else if Truthy(Get(data.fields, "id")) then
        Posted(data.fields["id"], map["success" := JBool(true), "data" := data])
      else Stop
  }

  /** Whether the loop retries after this attempt. */
  predicate Retries(a: Attempt)
  {
    AttemptStep(a).Fail? && IsRateLimitError(AttemptStep(a).message)
  }

  const MAX_RETRIES: nat := 3
  const RATE_LIMIT_EXCEEDED := "Rate limit exceeded after 3 retries"
  const RETRIES_EXHAUSTED := "Failed to post after maximum retries"
  const START_FAILED := "Failed to start social media bot for posting"

  /** One entry of the posting results. */
  datatype PostingRecord =
    | Published(postId: Json, content: string, newsTitle: string, newsId: nat, response: Obj)
    | NotPublished(error: string, content: string, newsTitle: string, newsId: nat)

  /** `post_data.get('news_id', i)`. */
  function NewsIdOf(post: GeneratedPost, i: nat): nat
  {
    if post.newsId.Some? then post.newsId.value else i
  }

  /** The attempt on which the loop for one post settles: 3 when all three were rate limited. */
  function SettledAttempt(attempts: nat -> Attempt): (n: nat)
    ensures n <= MAX_RETRIES
  {
    Settled(attempts, Retries, 0, MAX_RETRIES)
  }

  /** The records one post (the `i`-th, 1-based) adds, given the answers of its posting attempts. */
  function PostRecords(post: GeneratedPost, i: nat, attempts: nat -> Attempt): seq<PostingRecord>
  {
    var id := NewsIdOf(post, i);
    var n := SettledAttempt(attempts);
    if n == MAX_RETRIES then
      [NotPublished(RATE_LIMIT_EXCEEDED, post.content, post.newsTitle, id),
       NotPublished(RETRIES_EXHAUSTED, post.content, post.newsTitle, id)]
    else
      match AttemptStep(attempts(n))
      case Posted(postId, response) => [Published(postId, post.content, post.newsTitle, id, response)]
      case Stop => []
      case Fail(message) => [NotPublished(message, post.content, post.newsTitle, id)]
  }

  /** The backoff sleeps of one post's loop: 30 s then 60 s, never the 120 s its comment mentions. */
  function PostSleeps(attempts: nat -> Attempt): (s: seq<nat>)
    ensures s <= [30, 60]
  {
    var s := Backoff(30, Min(SettledAttempt(attempts), MAX_RETRIES - 1));
    assert Pow2(1) == 2;
    assert forall k :: 0 <= k < |s| ==> s[k] == [30, 60][k];
    s
  }

  /**
   * The retry loop for one generated post: records, sleeps and the number of
   * posting calls made.
   */
  method PostOne(post: GeneratedPost, i: nat, attempts: nat -> Attempt)
    returns (records: seq<PostingRecord>, sleeps: seq<nat>, calls: nat)
    ensures records == PostRecords(post, i, attempts)
    ensures sleeps == PostSleeps(attempts)
    ensures calls == Min(SettledAttempt(attempts) + 1, MAX_RETRIES)
  {
    var id := NewsIdOf(post, i);
    var retryCount := 0;
    var posted := false;
    records, sleeps, calls := [], [], 0;
    while retryCount < MAX_RETRIES && !posted
      invariant retryCount <= MAX_RETRIES
      invariant forall j :: 0 <= j < retryCount ==> Retries(attempts(j))
      invariant posted ==> retryCount < MAX_RETRIES && !Retries(attempts(retryCount))
      invariant calls == retryCount + (if posted then 1 else 0)
      invariant sleeps == Backoff(30, if retryCount == MAX_RETRIES then MAX_RETRIES - 1 else retryCount)
      invariant posted ==> records == PostRecords(post, i, attempts)
      invariant !posted && retryCount < MAX_RETRIES ==> records == []
      invariant !posted && retryCount == MAX_RETRIES ==>
        records == [NotPublished(RATE_LIMIT_EXCEEDED, post.content, post.newsTitle, id)]
      decreases MAX_RETRIES - retryCount, if posted then 0 else 1
    {
      var attempt := attempts(retryCount);
      calls := calls + 1;
      match AttemptStep(attempt)
      case Posted(postId, response) =>
        records := records + [Published(postId, post.content, post.newsTitle, id, response)];
        posted := true;
      case Stop =>
        break;
      case Fail(message) =>
        if IsRateLimitError(message) {
          retryCount := retryCount + 1;
          if retryCount < MAX_RETRIES {
            sleeps := sleeps + [30 * Pow2(retryCount - 1)];
          } else {
            records := records + [NotPublished(RATE_LIMIT_EXCEEDED, post.content, post.newsTitle, id)];
          }
        } else {
          records := records + [NotPublished(message, post.content, post.newsTitle, id)];
          break;
        }
    }
    if !posted && retryCount >= MAX_RETRIES {
      records := records + [NotPublished(RETRIES_EXHAUSTED, post.content, post.newsTitle, id)];
    }
  }

  /** A post leaves at most two records, and two exactly when all three attempts hit the rate limit. */
  lemma PostRecordsCount(post: GeneratedPost, i: nat, attempts: nat -> Attempt)
    ensures |PostRecords(post, i, attempts)| <= 2
    ensures |PostRecords(post, i, attempts)| == 2 <==> forall j :: 0 <= j < MAX_RETRIES ==> Retries(attempts(j))
    ensures |PostRecords(post, i, attempts)| == 0 <==>
      SettledAttempt(attempts) < MAX_RETRIES && AttemptStep(attempts(SettledAttempt(attempts))).Stop?
  {
    var n := SettledAttempt(attempts);
    if n < MAX_RETRIES {
      assert !Retries(attempts(n));
    }
  }

  /** A post is recorded as published exactly when the attempt the loop settles on returned a recognised response. */
  lemma PublishedIffPosted(post: GeneratedPost, i: nat, attempts: nat -> Attempt)
    ensures (exists r :: r in PostRecords(post, i, attempts) && r.Published?) <==>
      SettledAttempt(attempts) < MAX_RETRIES && AttemptStep(attempts(SettledAttempt(attempts))).Posted?
    ensures forall r :: r in PostRecords(post, i, attempts) ==>
      r.content == post.content && r.newsTitle == post.newsTitle && r.newsId == NewsIdOf(post, i)
  {
    var n := SettledAttempt(attempts);
    if n < MAX_RETRIES && AttemptStep(attempts(n)).Posted? {
      assert PostRecords(post, i, attempts)[0].Published?;
    }
  }

  /** The records of the first `k` posts; post `k` (1-based) answers `net(k - 1)`. */
  function AllRecords(posts: seq<GeneratedPost>, net: nat -> nat -> Attempt, k: nat): seq<PostingRecord>
    requires k <= |posts|
  {
    if k == 0 then [] else AllRecords(posts, net, k - 1) + PostRecords(posts[k - 1], k, net(k - 1))
  }

  /** The sleeps of the first `k` posts, with 15 s between consecutive posts. */
  function AllSleeps(posts: seq<GeneratedPost>, net: nat -> nat -> Attempt, k: nat): seq<nat>
    requires k <= |posts|
  {
    if k == 0 then []
    else AllSleeps(posts, net, k - 1) + PostSleeps(net(k - 1)) + (if k < |posts| then [15] else [])
  }

  /** The record when the bot is neither running nor startable. */
  const START_FAILURE := NotPublished(START_FAILED, "", "Error", 0)

  /**
   * `post_social_content`: `started` is whether the bot was running or its
   * `start` succeeded; `net(k)` answers the posting attempts of post `k`.
   */
  method PostSocialContent(started: bool, posts: seq<GeneratedPost>, net: nat -> nat -> Attempt)
    returns (records: seq<PostingRecord>, sleeps: seq<nat>)
    ensures !started ==> records == [START_FAILURE] && sleeps == []
    ensures started ==> records == AllRecords(posts, net, |posts|) && sleeps == AllSleeps(posts, net, |posts|)
  {
    if !started {
      return [START_FAILURE], [];
    }
    records, sleeps := [], [];
    for k := 0 to |posts|
      invariant records == AllRecords(posts, net, k)
      invariant sleeps == AllSleeps(posts, net, k)
    {
      var added, waited, _ := PostOne(posts[k], k + 1, net(k));
      records := records + added;
      sleeps := sleeps + waited;
      if k + 1 < |posts| {
        sleeps := sleeps + [15];
      }
    }
  }

  function CountPublished(records: seq<PostingRecord>): (n: nat)
    ensures n <= |records|
  {
    if records == [] then 0
    else CountPublished(records[..|records| - 1]) + (if records[|records| - 1].Published? then 1 else 0)
  }

  lemma {:induction false} CountPublishedAppend(a: seq<PostingRecord>, b: seq<PostingRecord>)
    ensures CountPublished(a + b) == CountPublished(a) + CountPublished(b)
    decreases |b|
  {
    if b == [] {
      assert a + b == a;
    } else {
      var b' := b[..|b| - 1];
      assert (a + b)[..|a + b| - 1] == a + b';
      CountPublishedAppend(a, b');
    }
  }

  /** At most one published record per post, and at most two records per post. */
  lemma {:induction false} PublishedAtMostOncePerPost(posts: seq<GeneratedPost>, net: nat -> nat -> Attempt, k: nat)
    requires k <= |posts|
    ensures CountPublished(AllRecords(posts, net, k)) <= k
    ensures |AllRecords(posts, net, k)| <= 2 * k
  {
    if k > 0 {
      PublishedAtMostOncePerPost(posts, net, k - 1);
      AllRecordsStep(posts, net, k);
    }
  }

  /** One more post adds at most one published record and at most two records. */
  lemma AllRecordsStep(posts: seq<GeneratedPost>, net: nat -> nat -> Attempt, k: nat)
    requires 0 < k <= |posts|
    ensures CountPublished(AllRecords(posts, net, k)) <= CountPublished(AllRecords(posts, net, k - 1)) + 1
    ensures |AllRecords(posts, net, k)| <= |AllRecords(posts, net, k - 1)| + 2
  {
    assert AllRecords(posts, net, k) == AllRecords(posts, net, k - 1) + PostRecords(posts[k - 1], k, net(k - 1));
    PostRecordsPublishOnce(posts[k - 1], k, net(k - 1));
    CountPublishedAppend(AllRecords(posts, net, k - 1), PostRecords(posts[k - 1], k, net(k - 1)));
  }

  lemma PostRecordsPublishOnce(post: GeneratedPost, i: nat, attempts: nat -> Attempt)
    ensures |PostRecords(post, i, attempts)| <= 2
    ensures CountPublished(PostRecords(post, i, attempts)) <= 1
  {
    var rs := PostRecords(post, i, attempts);
    if SettledAttempt(attempts) == MAX_RETRIES {
      assert rs[..1] == [rs[0]] && [rs[0]][..0] == [];
    } else {
      assert |rs| <= 1;
      if |rs| == 1 {
        assert rs[..0] == [];
      }
    }
  }

  // ---------------------------------------------------------------------
  // The complete workflow
  // ---------------------------------------------------------------------

  /**
   * The generated posts handed to publication: the first `maxPosts` when it
   * is truthy and the list is longer (a negative bound counts from the end,
   * as Python's slice does).
   */
  function PostsToPublish(generated: seq<GeneratedPost>, maxPosts: Option<int>): (r: seq<GeneratedPost>)
    ensures |r| <= |generated| && r == generated[..|r|]
    ensures maxPosts.None? || maxPosts.value == 0 ==> r == generated
    ensures maxPosts.Some? && maxPosts.value > 0 ==> |r| == Min(maxPosts.value, |generated|)
    ensures maxPosts.Some? && maxPosts.value < 0 ==> |r| == Max(|generated| + maxPosts.value, 0)
  {
    if maxPosts.Some? && maxPosts.value != 0 && |generated| > maxPosts.value then Take(generated, maxPosts.value)
    else generated
  }

  /** The success flag of each workflow step. */
  datatype Steps = Steps(newsData: bool, trendingData: bool, contentGeneration: bool, posting: bool)

  predicate AnyGenerated(posts: seq<GeneratedPost>) { exists k :: 0 <= k < |posts| && posts[k].success }

  predicate AnyPublished(records: seq<PostingRecord>) { exists k :: 0 <= k < |records| && records[k].Published? }

  predicate AllStepsSucceeded(s: Steps)
  {
    s.newsData && s.trendingData && s.contentGeneration && s.posting
  }

  /** `run_complete_workflow` from the crawled articles and trending posts on. */
  method RunCompleteWorkflow(
    articles: seq<Article>, trending: seq<TrendPost>, ai: nat -> Result<string, string>,
    started: bool, net: nat -> nat -> Attempt, maxPosts: Option<int>)
    returns (success: bool, steps: Steps, generated: seq<GeneratedPost>, records: seq<PostingRecord>)
    ensures steps == Steps(|articles| > 0, |trending| > 0, AnyGenerated(generated), AnyPublished(records))
    ensures success <==> AllStepsSucceeded(steps)
    ensures articles == [] ==> generated == [FALLBACK_ENTRY]
    ensures |articles| > 0 ==> |generated| == |articles|
    ensures started ==> records == AllRecords(PostsToPublish(generated, maxPosts), net, |PostsToPublish(generated, maxPosts)|)
    ensures !started ==> records == [START_FAILURE]
  {
    var prompts;
    generated, prompts := GenerateSocialContent(articles, trending, ai);
    var sleeps;
    records, sleeps := PostSocialContent(started, PostsToPublish(generated, maxPosts), net);
    steps := Steps(|articles| > 0, |trending| > 0, AnyGenerated(generated), AnyPublished(records));
    success := AllStepsSucceeded(steps);
  }

  /** Overall success needs articles, and a post actually published: the fallback entry alone never suffices. */
  lemma WorkflowSuccessNeedsPublication(steps: Steps, articles: seq<Article>, records: seq<PostingRecord>)
    requires steps.newsData == (|articles| > 0) && steps.posting == AnyPublished(records)
    ensures AllStepsSucceeded(steps) ==> |articles| > 0 && CountPublished(records) > 0
  {
    if AllStepsSucceeded(steps) {
      var k :| 0 <= k < |records| && records[k].Published?;
      CountPublishedAppend(records[..k + 1], records[k + 1..]);
      assert records[..k + 1] + records[k + 1..] == records;
      CountPublishedAppend(records[..k], [records[k]]);
      assert records[..k] + [records[k]] == records[..k + 1];
      assert [records[k]][..0] == [];
    }
  }
}
