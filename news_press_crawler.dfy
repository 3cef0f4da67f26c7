/**
 * The news and press-release crawler: which links count as articles, the
 * sorted, duplicate-free link list, the once-only article extraction with its
 * acceptance rule, and the summary generated from an article's text. Page
 * fetching and HTML parsing are oracles: a page is given as the links it
 * holds or the texts extracted from it.
 */
module NewsPressCrawler {
  import opened Wrappers
  import opened Text

  const BASE_URL := "https://victor-for-president.legitreal.com"

  const SKIP_PATTERNS: seq<string> := [
    "javascript:", "mailto:", "#", ".css", ".js", ".jpg", ".png",
    ".gif", ".pdf", ".ico", ".svg", "contact", "about", "privacy",
    "terms", "policies.html", "authors-list.html"]

  const HOME_SUFFIXES: seq<string> := ["/index.html", "/", "/index"]

  const NEWS_KEYWORDS: seq<string> := [
    "news", "press", "release", "article", "story", "update",
    "announcement", "statement", "kingston", "victor", "campaign",
    "beyond", "future", "vision", "building", "people"]

  const URL_MARKERS: seq<string> := [
    "/post/", "/news/", "/press/", "/article/", "/story/",
    "/release/", "/2025-", "kingston", "beyond", "future"]

  const ARTICLE_PATTERNS: seq<string> := [
    "/post/", "/news/", "/press/", "/article/", "/story/",
    "/release/", "/update/", "/announcement/"]

  /** `any(url.endswith(x) for x in suffixes)` */
  predicate EndsWithAny(s: string, suffixes: seq<string>)
  {
    exists i :: 0 <= i < |suffixes| && EndsWith(s, suffixes[i])
  }

  /** The word lists the link tests consult. */
  datatype LinkRules = LinkRules(
    skip: seq<string>, homeSuffixes: seq<string>, keywords: seq<string>,
    markers: seq<string>, patterns: seq<string>)

  const RULES := LinkRules(SKIP_PATTERNS, HOME_SUFFIXES, NEWS_KEYWORDS, URL_MARKERS, ARTICLE_PATTERNS)

  /** A link on the index page: its absolute URL, its text, and whether it sits in a news-like section. */
  datatype Link = Link(url: string, text: string, inNewsSection: bool)

  /**
   * `_is_news_press_url`: a same-site URL that is not a skipped file or page
   * and not a home-page variant, whose text or URL suggests an article.
   */
  predicate NewsPressUrl(rules: LinkRules, url: string, linkText: string)
  {
    var u := Lower(url);
    StartsWith(url, BASE_URL)
    && !ContainsAny(u, rules.skip)
    && !EndsWithAny(u, rules.homeSuffixes)
    && (ContainsAny(Lower(linkText), rules.keywords) || ContainsAny(u, rules.markers))
  }

  predicate IsNewsPressUrl(url: string, linkText: string)
  {
    NewsPressUrl(RULES, url, linkText)
  }

  /** `_is_valid_article_url`: same site, at least four slashes, not processed yet. */
  predicate IsValidArticleUrl(url: string, processed: set<string>)
  {
    StartsWith(url, BASE_URL) && CountChar(url, '/') >= 4 && url !in processed
  }

  /** The candidates of each of the three link strategies. */
  function SectionLinks(rules: LinkRules, links: seq<Link>): set<string>
  {
    set l | l in links && l.inNewsSection && NewsPressUrl(rules, l.url, l.text) :: l.url
  }

  function IndicatorLinks(rules: LinkRules, links: seq<Link>): set<string>
  {
    set l | l in links && NewsPressUrl(rules, l.url, l.text) :: l.url
  }

  function PatternLinks(rules: LinkRules, links: seq<Link>, processed: set<string>): set<string>
  {
    set l | l in links && ContainsAny(Lower(l.url), rules.patterns) && IsValidArticleUrl(l.url, processed) :: l.url
  }

  /** Every link the three strategies collect. */
  function FoundBy(rules: LinkRules, links: seq<Link>, processed: set<string>): set<string>
  {
    SectionLinks(rules, links) + IndicatorLinks(rules, links) + PatternLinks(rules, links, processed)
  }

  function LinksFound(links: seq<Link>, processed: set<string>): set<string>
  {
    FoundBy(RULES, links, processed)
  }

  /** The section strategy never finds a link the indicator strategy misses. */
  lemma SectionLinksRedundant(rules: LinkRules, links: seq<Link>)
    ensures SectionLinks(rules, links) <= IndicatorLinks(rules, links)
  {
  }

  /** The three strategies over the index page's links, one pass each. */
  method CollectLinks(rules: LinkRules, links: seq<Link>, processed: set<string>) returns (found: set<string>)
    ensures found == FoundBy(rules, links, processed)
  {
    var bySection: set<string> := {};
    for i := 0 to |links|
      invariant bySection == SectionLinks(rules, links[..i])
    {
      if links[i].inNewsSection && NewsPressUrl(rules, links[i].url, links[i].text) {
        bySection := bySection + {links[i].url};
      }
      assert links[..i + 1] == links[..i] + [links[i]];
    }
    var byIndicator: set<string> := {};
    for i := 0 to |links|
      invariant byIndicator == IndicatorLinks(rules, links[..i])
    {
      if NewsPressUrl(rules, links[i].url, links[i].text) {
        byIndicator := byIndicator + {links[i].url};
      }
      assert links[..i + 1] == links[..i] + [links[i]];
    }
    var byPattern: set<string> := {};
    for i := 0 to |links|
      invariant byPattern == PatternLinks(rules, links[..i], processed)
    {
      if ContainsAny(Lower(links[i].url), rules.patterns) && IsValidArticleUrl(links[i].url, processed) {
        byPattern := byPattern + {links[i].url};
      }
      assert links[..i + 1] == links[..i] + [links[i]];
    }
    assert links[..|links|] == links;
    found := bySection + byIndicator + byPattern;
  }

  predicate StrictlySorted(s: seq<string>)
  {
    forall i, j :: 0 <= i < j < |s| ==> Less(s[i], s[j])
  }

  /** `x` placed in a strictly sorted list of strings that does not hold it. */
  function Insert(s: seq<string>, x: string): (r: seq<string>)
    requires StrictlySorted(s) && x !in s
    ensures StrictlySorted(r)
    ensures forall y :: y in r <==> y in s || y == x
    ensures |r| == |s| + 1
  {
    if s == [] then [x]
    else if Less(x, s[0]) then
      assert forall j :: 0 < j < |s| ==> Less(x, s[j]) by {
        forall j | 0 < j < |s| ensures Less(x, s[j]) {
          LessTransitive(x, s[0], s[j]);
        }
      }
      [x] + s
    else
      LessTotal(x, s[0]);
      var rest := Insert(s[1..], x);
      assert forall y :: y in rest ==> Less(s[0], y) by {
        forall y | y in rest ensures Less(s[0], y) {
          if y != x {
            var j :| 0 <= j < |s[1..]| && s[1..][j] == y;
            assert s[j + 1] == y;
          }
        }
      }
      [s[0]] + rest
  }

  /** `sorted(list(links))`: the set as a strictly increasing list. */
  method SortedLinks(links: set<string>) returns (r: seq<string>)
    ensures StrictlySorted(r)
    ensures forall x :: x in r <==> x in links
  {
    r := [];
    var rest := links;
    while rest != {}
      invariant rest <= links
      invariant StrictlySorted(r)
      invariant forall x :: x in r <==> x in links && x !in rest
      decreases |rest|
    {
      var x :| x in rest;
      r := Insert(r, x);
      rest := rest - {x};
    }
  }

  /** What the article fetch and the HTML heuristics yield for a page. */
  datatype PageText = PageText(title: string, content: string, explicitSummary: Option<string>)

  /** An accepted article. */
  datatype ArticleData = ArticleData(title: string, content: string, summary: string)

  const SENTENCE_SEP := ". "
  const SUMMARY_LIMIT: nat := 400

  /**
   * `_extract_summary` from the content on: the first three sentences,
   * closed with a period and capped at 400 characters plus "...", when the
   * content has more than 100 characters and at least two sentences;
   * otherwise the content, cut to 200 characters plus "...".
   */
  function GeneratedSummary(content: string): (r: string)
    ensures |r| <= SUMMARY_LIMIT + 3
    ensures |content| <= 100 ==> r == content
  {
    var sentences := Split(content, SENTENCE_SEP);
    if content != "" && |content| > 100 && |sentences| >= 2 then
      var joined := Join(Take(sentences, 3), SENTENCE_SEP);
      var closed := if EndsWith(joined, ".") then joined else joined + ".";
      if |closed| > SUMMARY_LIMIT then closed[..SUMMARY_LIMIT] + "..." else closed
    else if |content| > 200 then content[..200] + "..."
    else content
  }

  /**
   * The generated summary quotes the content: apart from a closing "." or
   * "..." of at most three characters it is a prefix of the content, and a
   * sentence-based summary ends with a period.
   */
  lemma SummaryQuotesContent(content: string)
    ensures var r := GeneratedSummary(content);
      exists k :: Max(|r| - 3, 0) <= k <= |r| && StartsWith(content, r[..k])
    ensures content != "" && |content| > 100 && |Split(content, SENTENCE_SEP)| >= 2 ==>
      EndsWith(GeneratedSummary(content), ".")
  {
    var r := GeneratedSummary(content);
    var sentences := Split(content, SENTENCE_SEP);
    if content != "" && |content| > 100 && |sentences| >= 2 {
      var parts := Take(sentences, 3);
      var joined := Join(parts, SENTENCE_SEP);
      JoinSplit(content, SENTENCE_SEP);
      JoinPrefix(sentences, |parts|, SENTENCE_SEP);
      assert sentences[..|parts|] == parts;
      assert StartsWith(content, joined);
      var closed := if EndsWith(joined, ".") then joined else joined + ".";
      if |closed| > SUMMARY_LIMIT {
        assert r[..SUMMARY_LIMIT] == closed[..SUMMARY_LIMIT];
        assert |joined| >= SUMMARY_LIMIT;
        assert closed[..SUMMARY_LIMIT] == joined[..SUMMARY_LIMIT];
        assert StartsWith(content, r[..SUMMARY_LIMIT]);
      } else if EndsWith(joined, ".") {
        assert r[..|r|] == joined;
      } else {
        assert r[..|r| - 1] == joined;
      }
    } else if |content| > 200 {
      assert r[..200] == content[..200];
    } else {
      assert r[..|r|] == content;
    }
  }

  /** A content of two or three sentences within the limit is its own summary, with a period added when it lacks one. */
  lemma ShortContentIsItsOwnSummary(content: string)
    requires 100 < |content| < SUMMARY_LIMIT
    requires 2 <= |Split(content, SENTENCE_SEP)| <= 3
    ensures GeneratedSummary(content) == (if EndsWith(content, ".") then content else content + ".")
  {
    JoinSplit(content, SENTENCE_SEP);
  }

  /** The summary of an accepted page: the one the page states, else the generated one. */
  function SummaryOf(page: PageText): string
  {
    if page.explicitSummary.Some? then page.explicitSummary.value else GeneratedSummary(page.content)
  }

  /** The acceptance rule of `_extract_article_details`: a title and at least 100 characters of content. */
  predicate Acceptable(page: PageText)
  {
    page.title != "" && |page.content| >= 100
  }

  /** The crawl result: the accepted articles and the article count reported beside them. */
  datatype CrawlResult = CrawlResult(main: seq<ArticleData>, totalArticles: nat, error: Option<string>)

  class Crawler {
    /** URLs already handed to article extraction. */
    var processedUrls: set<string>

    constructor()
      ensures processedUrls == {}
    {
      processedUrls := {};
    }

    /**
     * `_find_news_press_links`: every strategy's candidates, deduplicated and
     * sorted. The pattern strategy skips URLs already processed.
     */
    method FindNewsPressLinks(links: seq<Link>) returns (r: seq<string>)
      ensures StrictlySorted(r)
      ensures forall x :: x in r <==> x in LinksFound(links, processedUrls)
    {
      var found := CollectLinks(RULES, links, processedUrls);
      r := SortedLinks(found);
    }

    /**
     * `_extract_article_details`: a URL is recorded as processed before its
     * page is fetched, so it is never fetched twice. `page` is the fetch and
     * parse outcome, an error when the request raised.
     */
    method ExtractArticleDetails(url: string, page: Result<PageText, string>) returns (a: Option<ArticleData>)
      modifies this
      ensures processedUrls == old(processedUrls) + {url}
      ensures a.Some? <==> url !in old(processedUrls) && page.Ok? && Acceptable(page.value)
      ensures a.Some? ==> a.value == ArticleData(page.value.title, page.value.content, SummaryOf(page.value))
    {
      if url in processedUrls {
        return None;
      }
      processedUrls := processedUrls + {url};
      if page.Err? {
        return None;
      }
      var p := page.value;
      var summary := SummaryOf(p);
      if p.title == "" || |p.content| < 100 {
        return None;
      }
      return Some(ArticleData(p.title, p.content, summary));
    }

    /**
     * The article loop of `crawl_news_and_press`: each URL in turn goes
     * through article extraction, and the accepted articles are kept in order.
     */
    method ExtractEach(urls: seq<string>, pages: string -> Result<PageText, string>) returns (main: seq<ArticleData>)
      requires Distinct(urls)
      modifies this
      ensures processedUrls == old(processedUrls) + (set u | u in urls)
      ensures main == Accepted(urls, pages, old(processedUrls))
    {
      main := [];
      for i := 0 to |urls|
        invariant processedUrls == old(processedUrls) + (set u | u in urls[..i])
        invariant main == Accepted(urls[..i], pages, old(processedUrls))
      {
        assert urls[i] !in urls[..i];
        var article := ExtractArticleDetails(urls[i], pages(urls[i]));
        if article.Some? {
          main := main + [article.value];
        }
        assert urls[..i + 1] == urls[..i] + [urls[i]];
        assert urls[..i + 1][..i] == urls[..i];
      }
      assert urls[..|urls|] == urls;
    }

    /**
     * `crawl_news_and_press`: `index` is the index page's links, or the error
     * that loading it raised; `pages` answers each article fetch. Every link
     * found is processed once, the articles kept are the accepted pages of
     * those links in sorted URL order, and the article count is the number kept.
     */
    method CrawlNewsAndPress(index: Result<seq<Link>, string>, pages: string -> Result<PageText, string>)
      returns (result: CrawlResult)
      modifies this
      ensures index.Err? ==> result == CrawlResult([], 0, Some(index.error)) && processedUrls == old(processedUrls)
      ensures index.Ok? ==> result.totalArticles == |result.main| && result.error.None?
      ensures index.Ok? ==> processedUrls == old(processedUrls) + LinksFound(index.value, old(processedUrls))
      ensures index.Ok? ==> |result.main| <= |LinksFound(index.value, old(processedUrls))|
      ensures index.Ok? ==>
        exists urls :: StrictlySorted(urls) && (forall x :: x in urls <==> x in LinksFound(index.value, old(processedUrls)))
          && result.main == Accepted(urls, pages, old(processedUrls))
    {
      if index.Err? {
        return CrawlResult([], 0, Some(index.error));
      }
      var articleLinks := FindNewsPressLinks(index.value);
      SortedDistinct(articleLinks);
      var main := ExtractEach(articleLinks, pages);
      AcceptedLength(articleLinks, pages, old(processedUrls));
      DistinctCardinality(articleLinks);
      assert (set u | u in articleLinks) == LinksFound(index.value, old(processedUrls));
      assert StrictlySorted(articleLinks) && main == Accepted(articleLinks, pages, old(processedUrls));
      return CrawlResult(main, |main|, None);
    }
  }

  lemma SortedDistinct(s: seq<string>)
    requires StrictlySorted(s)
    ensures Distinct(s)
  {
    forall i, j | 0 <= i < j < |s| ensures s[i] != s[j] {
      if s[i] == s[j] {
        LessIrreflexive(s[i]);
      }
    }
  }

  /**
   * The sorted order of the links is determined by the links alone: two
   * strictly sorted sequences with the same members are equal, so the
   * articles of `crawl_news_and_press` are one determined sequence.
   */
  lemma {:induction false} SortedUnique(s: seq<string>, t: seq<string>)
    requires StrictlySorted(s) && StrictlySorted(t)
    requires forall x :: x in s <==> x in t
    ensures s == t
    decreases |s|
  {
    if s != [] && t != [] {
      assert t[0] in t && s[0] in s;
      var i :| 0 <= i < |s| && s[i] == t[0];
      var j :| 0 <= j < |t| && t[j] == s[0];
      if i > 0 {
        if j > 0 {
          LessTransitive(s[0], s[i], s[0]);
          LessIrreflexive(s[0]);
        } else {
          LessIrreflexive(s[0]);
        }
      } else if j > 0 {
        LessIrreflexive(t[0]);
      }
      assert s[0] == t[0];
      SortedDistinct(s);
      SortedDistinct(t);
      forall x
        ensures x in s[1..] <==> x in t[1..]
      {
        if x in s[1..] {
          var k :| 0 <= k < |s| - 1 && s[1..][k] == x;
          assert s[k + 1] == x && x != s[0];
          assert x in s && x in t;
          var m :| 0 <= m < |t| && t[m] == x;
          assert m != 0 && t[1..][m - 1] == x;
        }
        if x in t[1..] {
          var k :| 0 <= k < |t| - 1 && t[1..][k] == x;
          assert t[k + 1] == x && x != t[0];
          assert x in t && x in s;
          var m :| 0 <= m < |s| && s[m] == x;
          assert m != 0 && s[1..][m - 1] == x;
        }
      }
      SortedUnique(s[1..], t[1..]);
      assert s == [s[0]] + s[1..] && t == [t[0]] + t[1..];
    } else {
      HeadIsMember(s);
      HeadIsMember(t);
    }
  }

  /** The first element of a non-empty sequence is one of its members. */
  lemma HeadIsMember(s: seq<string>)
    ensures s != [] ==> s[0] in s
  {
  }

  /** The articles the crawl keeps from `urls`, in order, when none of them repeats. */
  function Accepted(urls: seq<string>, pages: string -> Result<PageText, string>, processed: set<string>): seq<ArticleData>
  {
    if urls == [] then []
    else
      var u := urls[|urls| - 1];
      var page := pages(u);
      Accepted(urls[..|urls| - 1], pages, processed)
        + (if u !in processed && page.Ok? && Acceptable(page.value)
           then [ArticleData(page.value.title, page.value.content, SummaryOf(page.value))]
           else [])
  }

  lemma {:induction false} AcceptedLength(urls: seq<string>, pages: string -> Result<PageText, string>, processed: set<string>)
    ensures |Accepted(urls, pages, processed)| <= |urls|
  {
    if urls != [] {
      AcceptedLength(urls[..|urls| - 1], pages, processed);
    }
  }
}
