/**
 * The campaign website scraper: which URLs are articles, how an article is
 * classed as a press release, the once-only article scrape, the run of
 * paginated pages, the tag list, the grouping of the policies page, and the
 * bookkeeping of a whole scrape. Requests and HTML parsing are oracles: a
 * page is given as the status its HEAD request returns, the links it holds,
 * or the texts the extraction heuristics pick out of it.
 */
module VictorScraper {
  import opened Wrappers
  import opened Text

  const BASE_URL := "https://victor-for-president.legitreal.com"

  const SKIP_PATTERNS: seq<string> := [
    "javascript:", "mailto:", "#", ".css", ".js", ".jpg", ".png", ".gif", ".pdf",
    ".ico", ".svg", "contact", "about", "privacy", "terms"]

  const MAIN_PATHS: seq<string> := ["/", "/index.html", "/policies.html"]

  const PRESS_INDICATORS: seq<string> := [
    "press release", "announces", "statement", "official", "campaign",
    "for immediate release", "media contact"]

  // ---------------------------------------------------------------------
  // URL paths

  /** The part of `s` before its first character in `stops`. */
  function UpTo(s: string, stops: set<char>): (r: string)
    ensures StartsWith(s, r)
    ensures forall i :: 0 <= i < |r| ==> r[i] !in stops
    ensures |r| < |s| ==> s[|r|] in stops
  {
    if s == [] || s[0] in stops then [] else [s[0]] + UpTo(s[1..], stops)
  }

  /** The index just after the last '/' in `s`, 0 when there is none. */
  function AfterLastSlash(s: string): (k: nat)
    ensures k <= |s|
    ensures k > 0 ==> s[k - 1] == '/'
    ensures forall i :: k <= i < |s| ==> s[i] != '/'
  {
    if s == [] then 0
    else if s[|s| - 1] == '/' then |s|
    else AfterLastSlash(s[..|s| - 1])
  }

  /**
   * The path `urlparse` reports for a URL on the site: what follows the
   * network location (which runs to the first '/', '?' or '#'), up to the
   * query or fragment, without the `;params` of the last segment.
   */
  function UrlPath(url: string): (path: string)
    requires StartsWith(url, BASE_URL)
    ensures |path| <= |url| - |BASE_URL|
  {
    var rest := url[|BASE_URL|..];
    var netloc := UpTo(rest, {'/', '?', '#'});
    var full := UpTo(rest[|netloc|..], {'?', '#'});
    var k := AfterLastSlash(full);
    full[..k] + UpTo(full[k..], {';'})
  }

  /** The word lists `_is_article_url` consults. */
  datatype UrlRules = UrlRules(skip: seq<string>, mainPaths: seq<string>)

  const URL_RULES := UrlRules(SKIP_PATTERNS, MAIN_PATHS)

  /**
   * `_is_article_url`: a URL on the site, free of the skipped fragments,
   * whose path is neither a main page nor trivial.
   */
  predicate ArticleUrl(rules: UrlRules, url: string)
  {
    StartsWith(url, BASE_URL)
    && !ContainsAny(Lower(url), rules.skip)
    && Lower(UrlPath(url)) !in rules.mainPaths
    && |UrlPath(url)| > 1
  }

  predicate IsArticleUrl(url: string)
  {
    ArticleUrl(URL_RULES, url)
  }

  /** The path of a page right below the site root is that page with its leading '/'. */
  lemma PathBelowRoot(page: string)
    requires forall i :: 0 <= i < |page| ==> page[i] !in {'/', '?', '#', ';'}
    ensures StartsWith(BASE_URL + "/" + page, BASE_URL)
    ensures UrlPath(BASE_URL + "/" + page) == "/" + page
  {
    var url := BASE_URL + "/" + page;
    var full := "/" + page;
    assert url[..|BASE_URL|] == BASE_URL;
    assert url[|BASE_URL|..] == full;
    assert UpTo(full, {'/', '?', '#'}) == [];
    UpToNoStop(page, {'?', '#'});
    assert full[1..] == page;
    assert UpTo(full, {'?', '#'}) == full;
    AfterLastSlashOfSlashPrefix(page);
    assert full[..1] == "/" && full[1..] == page;
    UpToNoStop(page, {';'});
  }

  /** The site's root is never an article: its path is empty. */
  lemma RootIsNotArticle(rules: UrlRules)
    ensures !ArticleUrl(rules, BASE_URL)
  {
    assert BASE_URL[|BASE_URL|..] == "";
  }

  /** A main page right below the root, such as `/index.html`, is never an article, whatever is skipped. */
  lemma MainPageIsNotArticle(rules: UrlRules, page: string)
    requires forall i :: 0 <= i < |page| ==> page[i] !in {'/', '?', '#', ';'} && !('A' <= page[i] <= 'Z')
    requires page == "" || "/" + page in rules.mainPaths
    ensures !ArticleUrl(rules, BASE_URL + "/" + page)
  {
    PathBelowRoot(page);
    LowerOfLower("/" + page);
  }

  /** A page right below the site root, free of skipped fragments and not a main page, is an article. */
  lemma PageBelowRootIsArticle(rules: UrlRules, page: string)
    requires forall i :: 0 <= i < |page| ==> page[i] !in {'/', '?', '#', ';'}
    requires page != ""
    requires !ContainsAny(Lower(BASE_URL + "/" + page), rules.skip)
    requires Lower("/" + page) !in rules.mainPaths
    ensures ArticleUrl(rules, BASE_URL + "/" + page)
  {
    PathBelowRoot(page);
  }

  /** Lower-casing leaves a string without capitals as it is. */
  lemma LowerOfLower(s: string)
    requires forall i :: 0 <= i < |s| ==> !('A' <= s[i] <= 'Z')
    ensures Lower(s) == s
  {
  }

  lemma {:induction false} UpToNoStop(s: string, stops: set<char>)
    requires forall i :: 0 <= i < |s| ==> s[i] !in stops
    ensures UpTo(s, stops) == s
    decreases |s|
  {
    if s != [] {
      UpToNoStop(s[1..], stops);
    }
  }

  lemma {:induction false} AfterLastSlashOfSlashPrefix(page: string)
    requires forall i :: 0 <= i < |page| ==> page[i] != '/'
    ensures AfterLastSlash("/" + page) == 1
    decreases |page|
  {
    if page != [] {
      var init := page[..|page| - 1];
      assert ("/" + page)[..|"/" + page| - 1] == "/" + init;
      AfterLastSlashOfSlashPrefix(init);
    }
  }

  // ---------------------------------------------------------------------
  // Articles

  /** What the extraction heuristics yield for an article page. */
  datatype ArticlePage = ArticlePage(title: string, content: string, summary: string, tagTexts: seq<string>)

  /** A scraped article. */
  datatype Article = Article(url: string, title: string, content: string, summary: string, tags: seq<string>, wordCount: nat)

  /** `_is_press_release`: the lowercased title, content and summary mention a press-release phrase. */
  predicate PressReleaseText(indicators: seq<string>, title: string, content: string, summary: string)
  {
    ContainsAny(Lower(title + " " + content + " " + summary), indicators)
  }

  predicate PressRelease(indicators: seq<string>, a: Article)
  {
    PressReleaseText(indicators, a.title, a.content, a.summary)
  }

  predicate IsPressRelease(a: Article)
  {
    PressRelease(PRESS_INDICATORS, a)
  }

  /** A phrase in any one of the three texts makes the article a press release. */
  lemma {:induction false} IndicatorAnywhereMarksPressRelease(indicators: seq<string>, title: string, content: string, summary: string, i: nat)
    requires i < |indicators|
    requires Contains(Lower(title), indicators[i]) || Contains(Lower(content), indicators[i]) || Contains(Lower(summary), indicators[i])
    ensures PressReleaseText(indicators, title, content, summary)
  {
    var p := indicators[i];
    LowerJoined(title, content, summary);
    ContainsInJoined(Lower(title), Lower(content), Lower(summary), p);
    ContainsAnyMeans(Lower(title + " " + content + " " + summary), indicators);
  }

  lemma LowerJoined(title: string, content: string, summary: string)
    ensures Lower(title + " " + content + " " + summary) == Lower(title) + " " + Lower(content) + " " + Lower(summary)
  {
    LowerAppend(title + " " + content + " ", summary);
    LowerAppend(title + " " + content, " ");
    LowerAppend(title + " ", content);
    LowerAppend(title, " ");
  }

  lemma ContainsInJoined(lt: string, lc: string, ls: string, p: string)
    requires Contains(lt, p) || Contains(lc, p) || Contains(ls, p)
    ensures Contains(lt + " " + lc + " " + ls, p)
  {
    if Contains(lt, p) {
      ContainsExtend(lt, p, " " + lc + " " + ls);
      assert lt + (" " + lc + " " + ls) == lt + " " + lc + " " + ls;
    } else if Contains(lc, p) {
      ContainsExtend(lc, p, " " + ls);
      ContainsPrepend(lt + " ", lc + (" " + ls), p);
      assert (lt + " ") + (lc + (" " + ls)) == lt + " " + lc + " " + ls;
    } else {
      ContainsPrepend(lt + " " + lc + " ", ls, p);
    }
  }

  /** `_extract_tags`: the tag texts that are non-empty and under 50 characters, each once. */
  method ExtractTags(texts: seq<string>) returns (tags: seq<string>)
    ensures Distinct(tags)
    ensures forall t :: t in tags <==> t in texts && t != "" && |t| < 50
  {
    var kept: set<string> := {};
    for i := 0 to |texts|
      invariant forall t :: t in kept <==> t in texts[..i] && t != "" && |t| < 50
    {
      if texts[i] != "" && |texts[i]| < 50 {
        kept := kept + {texts[i]};
      }
      assert texts[..i + 1] == texts[..i] + [texts[i]];
    }
    assert texts[..|texts|] == texts;
    tags := ListOf(kept);
  }

  /** `list(s)` of a set: its elements once each, in an order the model leaves open. */
  method ListOf(s: set<string>) returns (r: seq<string>)
    ensures Distinct(r)
    ensures forall x :: x in r <==> x in s
  {
    r := [];
    var rest := s;
    while rest != {}
      invariant rest <= s
      invariant Distinct(r)
      invariant forall x :: x in r <==> x in s && x !in rest
      decreases |rest|
    {
      var x :| x in rest;
      r := r + [x];
      rest := rest - {x};
    }
  }

  /** The URLs of a list of articles. */
  function Urls(arts: seq<Article>): (r: seq<string>)
    ensures |r| == |arts|
    ensures forall i :: 0 <= i < |arts| ==> r[i] == arts[i].url
  {
    seq(|arts|, i requires 0 <= i < |arts| => arts[i].url)
  }

  // ---------------------------------------------------------------------
  // Pagination

  const FIRST_PAGE: nat := 2
  const LAST_PAGE: nat := 9

  function PageUrl(n: nat): string
  {
    BASE_URL + "/page" + NatToString(n) + "/"
  }

  /** The pages a HEAD request confirms, from page 2 on, up to the first that does not answer 200. */
  function PagesFound(status: nat -> Result<int, string>, n: nat): (r: seq<string>)
    requires FIRST_PAGE <= n <= LAST_PAGE + 1
    ensures |r| <= LAST_PAGE + 1 - n
    decreases LAST_PAGE + 1 - n
  {
    if n > LAST_PAGE || status(n) != Ok(200) then []
    else [PageUrl(n)] + PagesFound(status, n + 1)
  }

  /** The pages found form the run page2, page3, ... of pages that answered 200, ended by one that did not or by page 9. */
  lemma {:induction false} PagesFoundContiguous(status: nat -> Result<int, string>, n: nat)
    requires FIRST_PAGE <= n <= LAST_PAGE + 1
    ensures var r := PagesFound(status, n);
      (forall k :: 0 <= k < |r| ==> r[k] == PageUrl(n + k) && status(n + k) == Ok(200))
      && (n + |r| <= LAST_PAGE ==> status(n + |r|) != Ok(200))
    decreases LAST_PAGE + 1 - n
  {
    if n <= LAST_PAGE && status(n) == Ok(200) {
      PagesFoundContiguous(status, n + 1);
      var r := PagesFound(status, n);
      var tail := PagesFound(status, n + 1);
      assert r == [PageUrl(n)] + tail;
      forall k | 1 <= k < |r|
        ensures r[k] == PageUrl(n + k) && status(n + k) == Ok(200)
      {
        assert r[k] == tail[k - 1];
      }
    }
  }

  /** `_discover_paginated_urls`; `status` answers the HEAD request for each page number, an error when it raised. */
  method DiscoverPaginatedUrls(status: nat -> Result<int, string>) returns (urls: seq<string>)
    ensures urls == PagesFound(status, FIRST_PAGE)
    ensures |urls| <= LAST_PAGE - FIRST_PAGE + 1
  {
    urls := [];
    var pageNum := FIRST_PAGE;
    while pageNum <= LAST_PAGE
      invariant FIRST_PAGE <= pageNum <= LAST_PAGE + 1
      invariant urls + PagesFound(status, pageNum) == PagesFound(status, FIRST_PAGE)
      decreases LAST_PAGE + 1 - pageNum
    {
      if status(pageNum) != Ok(200) {
        break;
      }
      urls := urls + [PageUrl(pageNum)];
      pageNum := pageNum + 1;
    }
  }

  // ---------------------------------------------------------------------
  // Policies

  /** A classed section of the policies page: its first heading, if any, and its text. */
  datatype Section = Section(heading: Option<string>, content: string)

  /** The headings and text elements of the policies page, in document order. */
  datatype Element = Heading(text: string) | Body(text: string)

  datatype Policy = Policy(title: string, content: string, wordCount: nat)

  /** A policy is long enough to keep when its text exceeds 100 characters. */
  predicate LongEnough(content: string) { |content| > 100 }

  /** The classed sections with a heading and enough text, each with its word count. */
  function ClassedPolicies(sections: seq<Section>): (r: seq<Policy>)
  {
    if sections == [] then []
    else
      var s := sections[|sections| - 1];
      ClassedPolicies(sections[..|sections| - 1])
        + (if s.heading.Some? && LongEnough(s.content) then [Policy(s.heading.value, s.content, WordCount(s.content))] else [])
  }

  /** The state of the fallback grouping: the policies kept so far and the one being filled. */
  datatype Grouping = Grouping(done: seq<Policy>, current: Option<Policy>)

  /**
   * One element of the fallback grouping: a heading closes the current
   * policy, keeping it when long enough, and opens a new empty one; a
   * non-empty text under an open policy is appended on a new line.
   */
  function GroupStep(g: Grouping, e: Element): Grouping
  {
    match e
    case Heading(t) =>
      Grouping(
        if g.current.Some? && LongEnough(g.current.value.content) then g.done + [g.current.value] else g.done,
        Some(Policy(t, "", 0)))
    case Body(t) =>
      if g.current.Some? && t != "" then
        Grouping(g.done, Some(g.current.value.(content := g.current.value.content + "\n" + t)))
      else g
  }

  function Grouped(elems: seq<Element>): Grouping
  {
    if elems == [] then Grouping([], None)
    else GroupStep(Grouped(elems[..|elems| - 1]), elems[|elems| - 1])
  }

  /** The last policy is kept when long enough, and is the only one whose words are counted. */
  function FinishGrouping(g: Grouping): seq<Policy>
  {
    if g.current.Some? && LongEnough(g.current.value.content) then
      g.done + [g.current.value.(wordCount := WordCount(g.current.value.content))]
    else g.done
  }

  /** `_extract_policy_sections`: the classed sections, or the heading grouping when none qualifies. */
  function PolicySections(sections: seq<Section>, elems: seq<Element>): seq<Policy>
  {
    var classed := ClassedPolicies(sections);
    if classed != [] then classed else FinishGrouping(Grouped(elems))
  }

  /** What the grouping keeps as it goes: long policies with no word count, and an open one with none either. */
  predicate GroupingShape(g: Grouping)
  {
    (forall k :: 0 <= k < |g.done| ==> LongEnough(g.done[k].content) && g.done[k].wordCount == 0)
    && (g.current.Some? ==> g.current.value.wordCount == 0)
  }

  lemma {:induction false} GroupedShape(elems: seq<Element>)
    ensures GroupingShape(Grouped(elems))
  {
    if elems != [] {
      GroupedShape(elems[..|elems| - 1]);
    }
  }

  /** Each classed policy is long enough and carries its word count. */
  predicate Counted(p: Policy)
  {
    LongEnough(p.content) && p.wordCount == WordCount(p.content)
  }

  lemma {:induction false} ClassedShape(sections: seq<Section>)
    ensures forall p :: p in ClassedPolicies(sections) ==> Counted(p)
  {
    if sections != [] {
      var init := sections[..|sections| - 1];
      var s := sections[|sections| - 1];
      ClassedShape(init);
      var r := ClassedPolicies(sections);
      var before := ClassedPolicies(init);
      var added := if s.heading.Some? && LongEnough(s.content) then [Policy(s.heading.value, s.content, WordCount(s.content))] else [];
      assert r == before + added;
      assert forall p :: p in r ==> p in before || p in added;
    }
  }

  /**
   * Every policy kept has more than 100 characters of text. Classed sections
   * carry their word count; in the heading grouping every policy but the
   * last keeps a count of 0.
   */
  lemma PolicySectionsShape(sections: seq<Section>, elems: seq<Element>)
    ensures var r := PolicySections(sections, elems);
      (forall k :: 0 <= k < |r| ==> LongEnough(r[k].content))
      && (ClassedPolicies(sections) != [] ==> forall k :: 0 <= k < |r| ==> r[k].wordCount == WordCount(r[k].content))
      && (ClassedPolicies(sections) == [] ==> forall k :: 0 <= k < |r| - 1 ==> r[k].wordCount == 0)
  {
    var r := PolicySections(sections, elems);
    var classed := ClassedPolicies(sections);
    if classed != [] {
      ClassedShape(sections);
      assert r == classed;
      forall k | 0 <= k < |r| ensures LongEnough(r[k].content) && r[k].wordCount == WordCount(r[k].content) {
        assert Counted(classed[k]) by { assert classed[k] in classed; }
      }
    } else {
      GroupedShape(elems);
      var g := Grouped(elems);
      assert r == FinishGrouping(g);
      forall k | 0 <= k < |r| ensures LongEnough(r[k].content) && (k < |r| - 1 ==> r[k].wordCount == 0) {
        if k < |g.done| {
          assert r[k] == g.done[k];
        }
      }
    }
  }

  /** The loop over the classed sections. */
  method ClassedSections(sections: seq<Section>) returns (policies: seq<Policy>)
    ensures policies == ClassedPolicies(sections)
  {
    policies := [];
    for i := 0 to |sections|
      invariant policies == ClassedPolicies(sections[..i])
    {
      var s := sections[i];
      if s.heading.Some? && |s.content| > 100 {
        policies := policies + [Policy(s.heading.value, s.content, WordCount(s.content))];
      }
      assert sections[..i + 1][..i] == sections[..i];
    }
    assert sections[..|sections|] == sections;
  }

  /** The fallback loop, with the policy being filled held in a variable. */
  method GroupByHeadings(elems: seq<Element>) returns (policies: seq<Policy>)
    ensures policies == FinishGrouping(Grouped(elems))
  {
    policies := [];
    var current: Option<Policy> := None;
    for i := 0 to |elems|
      invariant Grouping(policies, current) == Grouped(elems[..i])
    {
      assert elems[..i + 1][..i] == elems[..i];
      match elems[i]
      case Heading(t) =>
        if current.Some? && |current.value.content| > 100 {
          policies := policies + [current.value];
        }
        current := Some(Policy(t, "", 0));
      case Body(t) =>
        if current.Some? && t != "" {
          current := Some(current.value.(content := current.value.content + "\n" + t));
        }
    }
    assert elems[..|elems|] == elems;
    if current.Some? && |current.value.content| > 100 {
      current := Some(current.value.(wordCount := WordCount(current.value.content)));
      policies := policies + [current.value];
    }
  }

  method ExtractPolicySections(sections: seq<Section>, elems: seq<Element>) returns (policies: seq<Policy>)
    ensures policies == PolicySections(sections, elems)
  {
    policies := ClassedSections(sections);
    if policies == [] {
      policies := GroupByHeadings(elems);
    }
  }

  // ---------------------------------------------------------------------
  // The scraper

  /** A main page that loaded: its URL and the article links on it. */
  datatype PageData = PageData(url: string, articleLinks: set<string>)

  /** The article links among a page's absolute link targets. */
  function ArticleLinksOf(rules: UrlRules, hrefs: seq<string>): set<string>
  {
    set u | u in hrefs && ArticleUrl(rules, u)
  }

  /** The main pages that loaded, in order; `mainPage` gives a page's link targets or the error loading it raised. */
  function PagesLoaded(rules: UrlRules, urls: seq<string>, mainPage: string -> Result<seq<string>, string>): seq<PageData>
  {
    if urls == [] then []
    else
      var u := urls[|urls| - 1];
      PagesLoaded(rules, urls[..|urls| - 1], mainPage)
        + (if mainPage(u).Ok? then [PageData(u, ArticleLinksOf(rules, mainPage(u).value))] else [])
  }

  function MainPageErrors(urls: seq<string>, mainPage: string -> Result<seq<string>, string>): seq<string>
  {
    if urls == [] then []
    else
      var u := urls[|urls| - 1];
      MainPageErrors(urls[..|urls| - 1], mainPage)
        + (if mainPage(u).Err? then [MainPageError(u, mainPage(u).error)] else [])
  }

  function MainPageError(url: string, e: string): string
  {
    "Error scraping main page " + url + ": " + ("Failed to scrape main page " + url + ": " + e)
  }

  function ArticleError(url: string, e: string): string
  {
    "Error scraping article " + url + ": " + ("Failed to scrape article " + url + ": " + e)
  }

  const POLICIES_ERROR := "Error extracting policies: "

  /** The errors step 2 logs: one per link not scraped before whose fetch failed. */
  function ArticleErrors(urls: seq<string>, articlePage: string -> Result<ArticlePage, string>, scraped: set<string>): seq<string>
  {
    if urls == [] then []
    else
      var u := urls[|urls| - 1];
      ArticleErrors(urls[..|urls| - 1], articlePage, scraped) + ArticleErrorOf(u, articlePage(u), scraped)
  }

  /** How many of `urls` step 2 turns into articles: those not scraped before whose page loads. */
  function Scrapable(urls: seq<string>, articlePage: string -> Result<ArticlePage, string>, scraped: set<string>): nat
  {
    if urls == [] then 0
    else
      var u := urls[|urls| - 1];
      Scrapable(urls[..|urls| - 1], articlePage, scraped) + (if u !in scraped && articlePage(u).Ok? then 1 else 0)
  }

  /** The error one link logs: none when it was scraped before or its fetch succeeded. */
  function ArticleErrorOf(u: string, page: Result<ArticlePage, string>, scraped: set<string>): seq<string>
  {
    if u !in scraped && page.Err? then [ArticleError(u, page.error)] else []
  }

  /** The pages `scrape_all` loads: the index and policies pages, then the paginated ones found. */
  function MainUrls(status: nat -> Result<int, string>): seq<string>
  {
    [BASE_URL + "/index.html", BASE_URL + "/policies.html"] + PagesFound(status, FIRST_PAGE)
  }

  /** All article links of a list of loaded pages. */
  function LinksOf(pages: seq<PageData>): set<string>
  {
    if pages == [] then {} else LinksOf(pages[..|pages| - 1]) + pages[|pages| - 1].articleLinks
  }

  /** The links of `found` that step 2 turns into articles: not scraped before, and their page loads. */
  ghost function Loadable(found: set<string>, articlePage: string -> Result<ArticlePage, string>, scraped: set<string>): set<string>
  {
    set u | u in found && u !in scraped && articlePage(u).Ok?
  }

  /**
   * The number of articles step 2 files does not depend on the order the
   * links are visited in: it is the number of distinct loadable links.
   */
  lemma {:induction false} ScrapableIsLoadable(links: seq<string>, articlePage: string -> Result<ArticlePage, string>, scraped: set<string>)
    requires Distinct(links)
    ensures Scrapable(links, articlePage, scraped) == |Loadable((set u | u in links), articlePage, scraped)|
    decreases |links|
  {
    if links == [] {
      assert Loadable((set u | u in links), articlePage, scraped) == {};
    } else {
      var init := links[..|links| - 1];
      var last := links[|links| - 1];
      ScrapableIsLoadable(init, articlePage, scraped);
      var before := Loadable((set u | u in init), articlePage, scraped);
      var after := Loadable((set u | u in links), articlePage, scraped);
      assert last !in before;
      assert links == init + [last];
      if last !in scraped && articlePage(last).Ok? {
        assert after == before + {last};
      } else {
        assert after == before;
      }
    }
  }

  /** The error step 3 logs: one when the policies page failed to load. */
  function PoliciesErrorOf(page: Result<(seq<Section>, seq<Element>), string>): seq<string>
  {
    if page.Err? then [POLICIES_ERROR + page.error] else []
  }

  /** What the policies page yields: its classed sections and its elements, or the error loading it raised. */
  type PoliciesPage = Result<(seq<Section>, seq<Element>), string>

  class Scraper {
    var scrapedUrls: set<string>
    var mainPages: seq<PageData>
    var newsArticles: seq<Article>
    var pressReleases: seq<Article>
    var policies: seq<Policy>
    var errors: seq<string>
    var totalPagesScraped: nat
    var totalArticlesExtracted: nat

    constructor()
      ensures scrapedUrls == {} && mainPages == [] && newsArticles == [] && pressReleases == []
      ensures policies == [] && errors == [] && totalPagesScraped == 0 && totalArticlesExtracted == 0
    {
      scrapedUrls := {};
      mainPages := [];
      newsArticles := [];
      pressReleases := [];
      policies := [];
      errors := [];
      totalPagesScraped := 0;
      totalArticlesExtracted := 0;
    }

    /**
     * `_scrape_article`: a URL already scraped yields nothing; otherwise it is
     * recorded before the fetch, and a failed fetch is raised as an error.
     */
    method ScrapeArticle(url: string, page: Result<ArticlePage, string>) returns (r: Result<Option<Article>, string>)
      modifies this`scrapedUrls
      ensures scrapedUrls == old(scrapedUrls) + {url}
      ensures url in old(scrapedUrls) ==> r == Ok(None)
      ensures url !in old(scrapedUrls) && page.Err? ==> r == Err("Failed to scrape article " + url + ": " + page.error)
      ensures url !in old(scrapedUrls) && page.Ok? ==> r.Ok? && r.value.Some?
      ensures r.Ok? && r.value.Some? ==> ScrapedFrom(r.value.value, url, page)
    {
      if url in scrapedUrls {
        return Ok(None);
      }
      scrapedUrls := scrapedUrls + {url};
      if page.Err? {
        return Err("Failed to scrape article " + url + ": " + page.error);
      }
      var p := page.value;
      var tags := ExtractTags(p.tagTexts);
      return Ok(Some(Article(url, p.title, p.content, p.summary, tags, WordCount(p.content))));
    }

    /** Step 1 of `scrape_all`: each main page in turn, its article links gathered. */
    method ScrapeMainPages(urls: seq<string>, mainPage: string -> Result<seq<string>, string>, rules: UrlRules) returns (links: set<string>)
      modifies this`mainPages, this`errors
      ensures mainPages == old(mainPages) + PagesLoaded(rules, urls, mainPage)
      ensures errors == old(errors) + MainPageErrors(urls, mainPage)
      ensures links == LinksOf(PagesLoaded(rules, urls, mainPage))
    {
      var loaded: seq<PageData>, logged: seq<string> := [], [];
      links := {};
      for i := 0 to |urls|
        invariant loaded == PagesLoaded(rules, urls[..i], mainPage)
        invariant logged == MainPageErrors(urls[..i], mainPage)
        invariant links == LinksOf(loaded)
        invariant mainPages == old(mainPages) && errors == old(errors)
      {
        var u := urls[i];
        MainPagesStep(rules, urls, mainPage, i);
        match mainPage(u)
        case Ok(hrefs) =>
          var page := PageData(u, ArticleLinksOf(rules, hrefs));
          LinksOfSnoc(loaded, page);
          loaded := loaded + [page];
          links := links + page.articleLinks;
        case Err(e) =>
          logged := logged + [MainPageError(u, e)];
      }
      assert urls[..|urls|] == urls;
      mainPages := mainPages + loaded;
      errors := errors + logged;
    }

    /** One link of step 2: scraped once, the article filed by `_is_press_release`, or the error logged. */
    method ScrapeStep(u: string, page: Result<ArticlePage, string>, indicators: seq<string>,
                      news: seq<Article>, press: seq<Article>, logged: seq<string>)
      returns (news': seq<Article>, press': seq<Article>, logged': seq<string>, ghost filed: Option<Article>)
      modifies this`scrapedUrls
      ensures scrapedUrls == old(scrapedUrls) + {u}
      ensures logged' == logged + ArticleErrorOf(u, page, old(scrapedUrls))
      ensures filed.Some? <==> u !in old(scrapedUrls) && page.Ok?
      ensures filed.Some? ==> filed.value.url == u && ScrapedFrom(filed.value, u, page)
      ensures filed.None? ==> news' == news && press' == press
      ensures filed.Some? && PressRelease(indicators, filed.value) ==> press' == press + [filed.value] && news' == news
      ensures filed.Some? && !PressRelease(indicators, filed.value) ==> news' == news + [filed.value] && press' == press
    {
      news', press', logged', filed := news, press, logged, None;
      var r := ScrapeArticle(u, page);
      if r.Err? {
        logged' := logged + ["Error scraping article " + u + ": " + r.error];
      } else if r.value.Some? {
        filed := r.value;
        if PressRelease(indicators, r.value.value) {
          press' := press + [r.value.value];
        } else {
          news' := news + [r.value.value];
        }
      }
    }

    /** The loop of step 2: each article link once, the articles and errors gathered in order. */
    method ScrapeLinks(links: seq<string>, articlePage: string -> Result<ArticlePage, string>, indicators: seq<string>)
      returns (news: seq<Article>, press: seq<Article>, logged: seq<string>)
      requires Distinct(links)
      modifies this`scrapedUrls
      ensures scrapedUrls == old(scrapedUrls) + (set u | u in links)
      ensures logged == ArticleErrors(links, articlePage, old(scrapedUrls))
      ensures Filed(indicators, news, press, set u | u in links, old(scrapedUrls), articlePage)
      ensures |news| + |press| == Scrapable(links, articlePage, old(scrapedUrls))
    {
      news, press, logged := [], [], [];
      ghost var seen: set<string> := {};
      for i := 0 to |links|
        invariant scrapedUrls == old(scrapedUrls) + seen
        invariant LinksScraped(links, i, articlePage, indicators, old(scrapedUrls), seen, news, press, logged)
      {
        news, press, logged, seen := ScrapeLinkAt(links, i, articlePage, indicators, old(scrapedUrls), seen, news, press, logged);
      }
      assert links[..|links|] == links;
      assert seen == set u | u in links;
    }

    /** One iteration of the loop of step 2: link `i` scraped, filed and its error logged. */
    method ScrapeLinkAt(links: seq<string>, i: nat, articlePage: string -> Result<ArticlePage, string>, indicators: seq<string>,
                        ghost scraped: set<string>, ghost seen: set<string>, news: seq<Article>, press: seq<Article>, logged: seq<string>)
      returns (news': seq<Article>, press': seq<Article>, logged': seq<string>, ghost seen': set<string>)
      requires Distinct(links) && i < |links|
      requires scrapedUrls == scraped + seen
      requires LinksScraped(links, i, articlePage, indicators, scraped, seen, news, press, logged)
      modifies this`scrapedUrls
      ensures scrapedUrls == scraped + seen'
      ensures LinksScraped(links, i + 1, articlePage, indicators, scraped, seen', news', press', logged')
    {
      var u := links[i];
      ghost var filed;
      news', press', logged', filed := ScrapeStep(u, articlePage(u), indicators, news, press, logged);
      LinksScrapedStep(links, i, articlePage, indicators, scraped, seen, news, press, logged, filed, news', press', logged');
      seen' := seen + {u};
    }

    /**
     * Step 2 of `scrape_all`: each article link once, every article scraped
     * filed as a press release or as news by `_is_press_release`, every
     * failed fetch logged.
     */
    method ScrapeArticles(links: seq<string>, articlePage: string -> Result<ArticlePage, string>, indicators: seq<string>)
      requires Distinct(links)
      modifies this`scrapedUrls, this`newsArticles, this`pressReleases, this`errors
      ensures scrapedUrls == old(scrapedUrls) + (set u | u in links)
      ensures errors == old(errors) + ArticleErrors(links, articlePage, old(scrapedUrls))
      ensures old(newsArticles) <= newsArticles && old(pressReleases) <= pressReleases
      ensures Filed(indicators, newsArticles[|old(newsArticles)|..], pressReleases[|old(pressReleases)|..], set u | u in links, old(scrapedUrls), articlePage)
      ensures |newsArticles| - |old(newsArticles)| + |pressReleases| - |old(pressReleases)| == Scrapable(links, articlePage, old(scrapedUrls))
      ensures |newsArticles| - |old(newsArticles)| + |pressReleases| - |old(pressReleases)| <= |set u | u in links|
    {
      var news, press, logged := ScrapeLinks(links, articlePage, indicators);
      newsArticles := newsArticles + news;
      pressReleases := pressReleases + press;
      errors := errors + logged;
      assert newsArticles[|old(newsArticles)|..] == news;
      assert pressReleases[|old(pressReleases)|..] == press;
      FiledCount(indicators, news, press, set u | u in links, old(scrapedUrls), articlePage);
    }

    /** Step 3 of `scrape_all`: the policies page replaces the policy list, or its error is logged. */
    method ExtractPolicies(page: PoliciesPage)
      modifies this`policies, this`errors
      ensures page.Ok? ==> policies == PolicySections(page.value.0, page.value.1) && errors == old(errors)
      ensures page.Err? ==> policies == old(policies) && errors == old(errors) + [POLICIES_ERROR + page.error]
    {
      match page
      case Ok(p) =>
        policies := ExtractPolicySections(p.0, p.1);
      case Err(e) =>
        errors := errors + [POLICIES_ERROR + e];
    }

    /**
     * Steps 1 and 2 of `scrape_all`: the main pages, then every article link
     * found on them exactly once, in some order of the set of links; the
     * article count is the number of those links not scraped before whose
     * page loads.
     */
    method ScrapePagesAndArticles(urls: seq<string>, rules: UrlRules, indicators: seq<string>,
                                  mainPage: string -> Result<seq<string>, string>,
                                  articlePage: string -> Result<ArticlePage, string>)
      returns (ghost links: seq<string>)
      modifies this`scrapedUrls, this`mainPages, this`newsArticles, this`pressReleases, this`errors
      ensures mainPages == old(mainPages) + PagesLoaded(rules, urls, mainPage)
      ensures scrapedUrls == old(scrapedUrls) + LinksOf(PagesLoaded(rules, urls, mainPage))
      ensures old(newsArticles) <= newsArticles && old(pressReleases) <= pressReleases
      ensures Filed(indicators, newsArticles[|old(newsArticles)|..], pressReleases[|old(pressReleases)|..],
                    LinksOf(PagesLoaded(rules, urls, mainPage)), old(scrapedUrls), articlePage)
      ensures |newsArticles| - |old(newsArticles)| + |pressReleases| - |old(pressReleases)|
        == |Loadable(LinksOf(PagesLoaded(rules, urls, mainPage)), articlePage, old(scrapedUrls))|
      ensures Distinct(links) && (set u | u in links) == LinksOf(PagesLoaded(rules, urls, mainPage))
      ensures errors == old(errors) + MainPageErrors(urls, mainPage) + ArticleErrors(links, articlePage, old(scrapedUrls))
    {
      var found := ScrapeMainPages(urls, mainPage, rules);
      var linkList := ListOf(found);
      ScrapeArticles(linkList, articlePage, indicators);
      assert (set u | u in linkList) == found;
      ScrapableIsLoadable(linkList, articlePage, old(scrapedUrls));
      links := linkList;
    }

    /**
     * `scrape_all` once the pages to load are known: the main pages, then
     * every article link found on them, then the policies; the totals count
     * the main pages kept and the articles filed.
     */
    method ScrapeSite(urls: seq<string>, rules: UrlRules, indicators: seq<string>,
                      mainPage: string -> Result<seq<string>, string>,
                      articlePage: string -> Result<ArticlePage, string>, policiesPage: PoliciesPage)
      returns (ghost links: seq<string>)
      modifies this
      ensures mainPages == old(mainPages) + PagesLoaded(rules, urls, mainPage)
      ensures scrapedUrls == old(scrapedUrls) + LinksOf(PagesLoaded(rules, urls, mainPage))
      ensures totalPagesScraped == |mainPages|
      ensures totalArticlesExtracted == |newsArticles| + |pressReleases|
      ensures old(newsArticles) <= newsArticles && old(pressReleases) <= pressReleases
      ensures Filed(indicators, newsArticles[|old(newsArticles)|..], pressReleases[|old(pressReleases)|..],
                    LinksOf(PagesLoaded(rules, urls, mainPage)), old(scrapedUrls), articlePage)
      ensures |newsArticles| - |old(newsArticles)| + |pressReleases| - |old(pressReleases)|
        == |Loadable(LinksOf(PagesLoaded(rules, urls, mainPage)), articlePage, old(scrapedUrls))|
      ensures Distinct(links) && (set u | u in links) == LinksOf(PagesLoaded(rules, urls, mainPage))
      ensures errors == old(errors) + MainPageErrors(urls, mainPage) + ArticleErrors(links, articlePage, old(scrapedUrls))
                        + PoliciesErrorOf(policiesPage)
      ensures policiesPage.Ok? ==> policies == PolicySections(policiesPage.value.0, policiesPage.value.1)
      ensures policiesPage.Err? ==> policies == old(policies)
    {
      links := ScrapePagesAndArticles(urls, rules, indicators, mainPage, articlePage);
      ghost var filedNews, filedPress := newsArticles, pressReleases;
      ExtractPolicies(policiesPage);
      assert newsArticles == filedNews && pressReleases == filedPress;
      totalPagesScraped := |mainPages|;
      totalArticlesExtracted := |newsArticles| + |pressReleases|;
    }

    /** `scrape_all`: the index and policies pages and the paginated ones found, with the site's own word lists. */
    method ScrapeAll(status: nat -> Result<int, string>, mainPage: string -> Result<seq<string>, string>,
                     articlePage: string -> Result<ArticlePage, string>, policiesPage: PoliciesPage)
      returns (ghost links: seq<string>)
      modifies this
      ensures mainPages == old(mainPages) + PagesLoaded(URL_RULES, MainUrls(status), mainPage)
      ensures scrapedUrls == old(scrapedUrls) + LinksOf(PagesLoaded(URL_RULES, MainUrls(status), mainPage))
      ensures totalPagesScraped == |mainPages|
      ensures totalArticlesExtracted == |newsArticles| + |pressReleases|
      ensures old(newsArticles) <= newsArticles && old(pressReleases) <= pressReleases
      ensures Filed(PRESS_INDICATORS, newsArticles[|old(newsArticles)|..], pressReleases[|old(pressReleases)|..],
                    LinksOf(PagesLoaded(URL_RULES, MainUrls(status), mainPage)), old(scrapedUrls), articlePage)
      ensures |newsArticles| - |old(newsArticles)| + |pressReleases| - |old(pressReleases)|
        == |Loadable(LinksOf(PagesLoaded(URL_RULES, MainUrls(status), mainPage)), articlePage, old(scrapedUrls))|
      ensures Distinct(links) && (set u | u in links) == LinksOf(PagesLoaded(URL_RULES, MainUrls(status), mainPage))
      ensures errors == old(errors) + MainPageErrors(MainUrls(status), mainPage)
                        + ArticleErrors(links, articlePage, old(scrapedUrls)) + PoliciesErrorOf(policiesPage)
      ensures policiesPage.Ok? ==> policies == PolicySections(policiesPage.value.0, policiesPage.value.1)
      ensures policiesPage.Err? ==> policies == old(policies)
    {
      var paginated := DiscoverPaginatedUrls(status);
      var allUrls := [BASE_URL + "/index.html", BASE_URL + "/policies.html"] + paginated;
      links := ScrapeSite(allUrls, URL_RULES, PRESS_INDICATORS, mainPage, articlePage, policiesPage);
    }
  }

  /** The state of the loop of step 2 after its first `i` links. */
  ghost predicate LinksScraped(links: seq<string>, i: nat, articlePage: string -> Result<ArticlePage, string>, indicators: seq<string>,
                               scraped: set<string>, seen: set<string>, news: seq<Article>, press: seq<Article>, logged: seq<string>)
  {
    i <= |links|
    && (forall v :: v in seen <==> v in links[..i])
    && logged == ArticleErrors(links[..i], articlePage, scraped)
    && Filed(indicators, news, press, seen, scraped, articlePage)
    && |news| + |press| == Scrapable(links[..i], articlePage, scraped)
  }

  /** Scraping link `i` as `ScrapeStep` does takes the loop of step 2 from `i` links to `i + 1`. */
  lemma LinksScrapedStep(links: seq<string>, i: nat, articlePage: string -> Result<ArticlePage, string>, indicators: seq<string>,
                         scraped: set<string>, seen: set<string>, news: seq<Article>, press: seq<Article>, logged: seq<string>,
                         filed: Option<Article>, news': seq<Article>, press': seq<Article>, logged': seq<string>)
    requires Distinct(links) && i < |links|
    requires LinksScraped(links, i, articlePage, indicators, scraped, seen, news, press, logged)
    requires logged' == logged + ArticleErrorOf(links[i], articlePage(links[i]), scraped + seen)
    requires filed.Some? <==> links[i] !in scraped + seen && articlePage(links[i]).Ok?
    requires filed.Some? ==> filed.value.url == links[i] && ScrapedFrom(filed.value, links[i], articlePage(links[i]))
    requires filed.None? ==> news' == news && press' == press
    requires filed.Some? && PressRelease(indicators, filed.value) ==> press' == press + [filed.value] && news' == news
    requires filed.Some? && !PressRelease(indicators, filed.value) ==> news' == news + [filed.value] && press' == press
    ensures LinksScraped(links, i + 1, articlePage, indicators, scraped, seen + {links[i]}, news', press', logged')
  {
    var u := links[i];
    LinksStep(links, articlePage, scraped, i);
    assert u !in seen;
    assert logged' == ArticleErrors(links[..i + 1], articlePage, scraped) by {
      assert ArticleErrorOf(u, articlePage(u), scraped + seen) == ArticleErrorOf(u, articlePage(u), scraped);
    }
    assert Filed(indicators, news', press', seen + {u}, scraped, articlePage) by {
      FiledStep(indicators, news, press, seen, scraped, articlePage, u, filed);
    }
    assert |news'| + |press'| == Scrapable(links[..i + 1], articlePage, scraped);
  }

  /** One more main page: its data is kept when it loads, its error logged when it does not. */
  lemma MainPagesStep(rules: UrlRules, urls: seq<string>, mainPage: string -> Result<seq<string>, string>, i: nat)
    requires i < |urls|
    ensures PagesLoaded(rules, urls[..i + 1], mainPage) == PagesLoaded(rules, urls[..i], mainPage)
      + (if mainPage(urls[i]).Ok? then [PageData(urls[i], ArticleLinksOf(rules, mainPage(urls[i]).value))] else [])
    ensures MainPageErrors(urls[..i + 1], mainPage) == MainPageErrors(urls[..i], mainPage)
      + (if mainPage(urls[i]).Err? then [MainPageError(urls[i], mainPage(urls[i]).error)] else [])
  {
    assert urls[..i + 1][..i] == urls[..i];
  }

  lemma LinksOfSnoc(pages: seq<PageData>, page: PageData)
    ensures LinksOf(pages + [page]) == LinksOf(pages) + page.articleLinks
  {
    assert (pages + [page])[..|pages|] == pages;
  }

  /** One more link of step 2, new among the links: its error and its article are counted once. */
  lemma LinksStep(links: seq<string>, articlePage: string -> Result<ArticlePage, string>, scraped: set<string>, i: nat)
    requires Distinct(links) && i < |links|
    ensures ArticleErrors(links[..i + 1], articlePage, scraped)
      == ArticleErrors(links[..i], articlePage, scraped) + ArticleErrorOf(links[i], articlePage(links[i]), scraped)
    ensures Scrapable(links[..i + 1], articlePage, scraped) == Scrapable(links[..i], articlePage, scraped)
      + (if links[i] !in scraped && articlePage(links[i]).Ok? then 1 else 0)
    ensures links[i] !in links[..i]
    ensures forall v :: v in links[..i + 1] <==> v in links[..i] || v == links[i]
  {
    assert links[..i + 1][..i] == links[..i];
    assert links[..i + 1] == links[..i] + [links[i]];
  }

  /** The texts of `a` are those `page` gave, with its words counted. */
  predicate TextsFrom(a: Article, page: Result<ArticlePage, string>)
  {
    page.Ok? && a.title == page.value.title && a.content == page.value.content
    && a.summary == page.value.summary && a.wordCount == WordCount(page.value.content)
  }

  /** `a` is what scraping `url` from `page` gives: its texts, its words counted, its tags filtered and unique. */
  ghost predicate ScrapedFrom(a: Article, url: string, page: Result<ArticlePage, string>)
  {
    a.url == url && TextsFrom(a, page)
    && Distinct(a.tags)
    && (forall t :: t in a.tags <==> t in page.value.tagTexts && t != "" && |t| < 50)
  }

  /**
   * The articles filed from the links `from`: every press release reads as
   * one and no news article does, each is what scraping its page gave (texts,
   * word count and tags) for a link not scraped before, and no URL is filed twice, within a list or across the
   * two.
   */
  ghost predicate Filed(indicators: seq<string>, news: seq<Article>, press: seq<Article>, from: set<string>, scraped: set<string>,
                       pages: string -> Result<ArticlePage, string>)
  {
    (forall a :: a in press ==> PressRelease(indicators, a))
    && (forall a :: a in news ==> !PressRelease(indicators, a))
    && (forall a :: a in news + press ==> a.url in from && a.url !in scraped && ScrapedFrom(a, a.url, pages(a.url)))
    && Distinct(Urls(news)) && Distinct(Urls(press))
    && (forall a, b :: a in news && b in press ==> a.url != b.url)
  }

  /** Scraping one more link, new to the filing, keeps the filing sound, whether or not it gave an article. */
  lemma FiledStep(indicators: seq<string>, news: seq<Article>, press: seq<Article>, from: set<string>, scraped: set<string>,
                  pages: string -> Result<ArticlePage, string>, u: string, filed: Option<Article>)
    requires Filed(indicators, news, press, from, scraped, pages)
    requires u !in from
    requires filed.Some? ==> filed.value.url == u && u !in scraped && ScrapedFrom(filed.value, u, pages(u))
    ensures filed.None? ==> Filed(indicators, news, press, from + {u}, scraped, pages)
    ensures filed.Some? && PressRelease(indicators, filed.value) ==> Filed(indicators, news, press + [filed.value], from + {u}, scraped, pages)
    ensures filed.Some? && !PressRelease(indicators, filed.value) ==> Filed(indicators, news + [filed.value], press, from + {u}, scraped, pages)
  {
    if filed.Some? {
      var a := filed.value;
      if PressRelease(indicators, a) {
        FiledAddPress(indicators, news, press, from, scraped, pages, a);
      } else {
        FiledAddNews(indicators, news, press, from, scraped, pages, a);
      }
    }
  }

  lemma FiledAddPress(indicators: seq<string>, news: seq<Article>, press: seq<Article>, from: set<string>, scraped: set<string>,
                      pages: string -> Result<ArticlePage, string>, a: Article)
    requires Filed(indicators, news, press, from, scraped, pages)
    requires a.url !in from && a.url !in scraped && ScrapedFrom(a, a.url, pages(a.url)) && PressRelease(indicators, a)
    ensures Filed(indicators, news, press + [a], from + {a.url}, scraped, pages)
  {
    UrlsOutside(news, press, from, a);
    DistinctSnoc(press, a);
    assert forall x :: x in news + (press + [a]) ==> x in news + press || x == a;
  }

  lemma FiledAddNews(indicators: seq<string>, news: seq<Article>, press: seq<Article>, from: set<string>, scraped: set<string>,
                     pages: string -> Result<ArticlePage, string>, a: Article)
    requires Filed(indicators, news, press, from, scraped, pages)
    requires a.url !in from && a.url !in scraped && ScrapedFrom(a, a.url, pages(a.url)) && !PressRelease(indicators, a)
    ensures Filed(indicators, news + [a], press, from + {a.url}, scraped, pages)
  {
    UrlsOutside(news, press, from, a);
    DistinctSnoc(news, a);
    assert forall x :: x in news + [a] + press ==> x in news + press || x == a;
  }

  /** An article whose URL lies outside the links filed from shares its URL with no filed article. */
  lemma UrlsOutside(news: seq<Article>, press: seq<Article>, from: set<string>, a: Article)
    requires forall b :: b in news + press ==> b.url in from
    requires a.url !in from
    ensures forall b :: b in news ==> b.url != a.url
    ensures forall b :: b in press ==> b.url != a.url
  {
    forall b | b in news ensures b.url != a.url {
      assert b in news + press;
    }
    forall b | b in press ensures b.url != a.url {
      assert b in news + press;
    }
  }

  lemma DistinctSnoc(arts: seq<Article>, a: Article)
    requires Distinct(Urls(arts))
    requires forall b :: b in arts ==> b.url != a.url
    ensures Distinct(Urls(arts + [a]))
  {
    assert Urls(arts + [a]) == Urls(arts) + [a.url];
    forall i | 0 <= i < |arts| ensures Urls(arts)[i] != a.url {
      assert arts[i] in arts;
    }
  }

  /** Filed articles number no more than the links they come from. */
  lemma FiledCount(indicators: seq<string>, news: seq<Article>, press: seq<Article>, from: set<string>, scraped: set<string>,
                   pages: string -> Result<ArticlePage, string>)
    requires Filed(indicators, news, press, from, scraped, pages)
    ensures |news| + |press| <= |from|
  {
    var ns, ps := set u | u in Urls(news), set u | u in Urls(press);
    DistinctCardinality(Urls(news));
    DistinctCardinality(Urls(press));
    UrlsWithin(news, news + press, from);
    UrlsWithin(press, news + press, from);
    assert ns * ps == {} by {
      forall u | u in ns ensures u !in ps {
        var i :| 0 <= i < |news| && news[i].url == u;
        forall j | 0 <= j < |press| ensures press[j].url != u {
          assert news[i] in news && press[j] in press;
        }
      }
    }
    SubsetCardinality(ns + ps, from);
  }

  lemma UrlsWithin(arts: seq<Article>, all: seq<Article>, from: set<string>)
    requires forall a :: a in arts ==> a in all
    requires forall a :: a in all ==> a.url in from
    ensures (set u | u in Urls(arts)) <= from
  {
    forall u | u in Urls(arts) ensures u in from {
      var i :| 0 <= i < |arts| && Urls(arts)[i] == u;
      assert arts[i] in arts;
    }
  }

  lemma SubsetCardinality(a: set<string>, b: set<string>)
    requires a <= b
    ensures |a| <= |b|
  {
    assert b == a + (b - a);
  }
}
