/**
 * The team bot façade `TwooterTeamBot`: starting and stopping, the guard that
 * answers None before the bot has started, the wrapped `create_post`, the
 * de-duplicating feed monitor, the rate-limited auto-engagement loop, the
 * setup check and the interactive command line.
 *
 * The post package's social helper and the top-level team bot carry the same
 * class; both are modelled here.  Remote calls are `Reply` parameters or
 * oracles indexed by round, the clock is an oracle of whole seconds, and an
 * endless `while` loop runs for a given number of rounds (the point where the
 * user interrupts it).  Sleeps and printing are left out.
 */
module TeamBot {
  import opened Wrappers
  import opened Text
  import opened Json
  import opened Http
  import AuthManager
  import ConfigManager
  import PostingManager

  // ---------------------------------------------------------------- setup check

  /** What `_validate_setup` reports: the first failing section, or that all is well. */
  datatype SetupVerdict = Ready | ApiNotConfigured | CredentialsNotConfigured | TeamNotConfigured

  /**
   * `_validate_setup`: the API settings are checked first, then the
   * credentials, then the team; the database section is validated but never
   * consulted.
   */
  function CheckSetup(v: ConfigManager.Validation): (r: SetupVerdict)
    ensures r == Ready <==> v.api && v.credentials && v.team
    ensures r == ApiNotConfigured <==> !v.api
    ensures r == CredentialsNotConfigured <==> v.api && !v.credentials
    ensures r == TeamNotConfigured <==> v.api && v.credentials && !v.team
  {
    if !v.api then ApiNotConfigured
    else if !v.credentials then CredentialsNotConfigured
    else if !v.team then TeamNotConfigured
    else Ready
  }

  /** A configuration built without a file and without environment credentials is reported as lacking credentials. */
  lemma DefaultSetupLacksCredentials()
    ensures CheckSetup(ConfigManager.Validate(Some(ConfigManager.DEFAULT_API), Some(ConfigManager.DEFAULT_DATABASE),
                                              None, Some(ConfigManager.NO_TEAM))) == CredentialsNotConfigured
  {
  }

  // ---------------------------------------------------------------- start

  /** The arguments `start` hands to `authenticate_with_fallback`. */
  function StartCredentials(b: ConfigManager.BotCredentials, t: ConfigManager.TeamSettings): (c: AuthManager.Credentials)
    ensures c.username == b.username && c.password == b.password
    ensures c.email == b.email && c.displayName == b.displayName
    ensures c.inviteCode == t.inviteCode && c.botKey == t.botKey
    ensures c.teamInfo == ConfigManager.TeamInfoOf(Some(t))
  {
    AuthManager.Credentials(b.username, b.password, b.email, b.displayName,
                            t.inviteCode, t.botKey, ConfigManager.TeamInfoOf(Some(t)))
  }

  // ---------------------------------------------------------------- façade results

  /** A façade call catches every exception of the posting manager and answers None. */
  function Caught<T>(o: Result<T, PostingManager.Failure>): (r: Option<T>)
    ensures r.Some? <==> o.Ok?
    ensures r.Some? ==> r.value == o.value
  {
    if o.Ok? then Some(o.value) else None
  }

  /**
   * The social helper's `create_post` wrapping: a result whose `data` is a
   * non-empty object with a truthy `id` becomes `{"success": True, "data": ...}`;
   * anything else, including a `data` the id lookup raises on, becomes None.
   */
  function Wrapped(result: Obj): (r: Option<Obj>)
    ensures r.Some? <==> "data" in result && result["data"].JObj? && Truthy(Get(result["data"].fields, "id"))
    ensures r.Some? ==> r.value.Keys == {"success", "data"}
    ensures r.Some? ==> r.value["success"] == JBool(true) && r.value["data"] == result["data"]
  {
    if TruthyObj(result) && Truthy(Get(result, "data")) then
      match result["data"]
      case JObj(d) => if Truthy(Get(d, "id")) then Some(map["success" := JBool(true), "data" := result["data"]]) else None
      case _ => None
    else None
  }

  /** The wrapping accepts exactly the results whose nested `data.id` lookup succeeds with a truthy value. */
  lemma WrappedIffTruthyId(result: Obj)
    ensures Wrapped(result).Some? <==> GetNested(result, "data", "id").Ok? && Truthy(GetNested(result, "data", "id").value)
  {
  }

  // ---------------------------------------------------------------- feed monitoring

  /** The feed types `monitor_feeds` knows how to fetch. */
  const FEED_TYPES: seq<string> := ["trending", "latest", "home", "explore"]

  /** The feeds monitored when none are named. */
  const DEFAULT_FEEDS: seq<string> := ["trending", "latest"]

  function Elems<T>(s: seq<T>): (r: set<T>) { set x | x in s }

  /** `post.get('id')` for each post of a feed. */
  function PostIds(posts: seq<Obj>): (r: seq<Json>)
    ensures |r| == |posts|
    ensures forall i :: 0 <= i < |posts| ==> r[i] == Get(posts[i], "id")
  {
    seq(|posts|, i requires 0 <= i < |posts| => Get(posts[i], "id"))
  }

  /** The ids one feed check reports as new: each truthy id not seen before, at its first occurrence. */
  function NewIds(ids: seq<Json>, seen: set<Json>): (r: seq<Json>)
    decreases |ids|
  {
    if ids == [] then []
    else if Truthy(ids[0]) && ids[0] !in seen then [ids[0]] + NewIds(ids[1..], seen + {ids[0]})
    else NewIds(ids[1..], seen)
  }

  /**
   * A check reports no id twice and none seen before, only truthy ids of the
   * feed, and every truthy id of the feed that was not seen before.
   */
  lemma {:induction false} NewIdsMeaning(ids: seq<Json>, seen: set<Json>)
    ensures Distinct(NewIds(ids, seen))
    ensures forall x :: x in NewIds(ids, seen) ==> Truthy(x) && x !in seen && x in ids
    ensures forall x :: x in ids && Truthy(x) && x !in seen ==> x in NewIds(ids, seen)
    decreases |ids|
  {
    if ids != [] {
      NewIdsMeaning(ids[1..], seen + {ids[0]});
      NewIdsMeaning(ids[1..], seen);
      assert forall x :: x in ids ==> x == ids[0] || x in ids[1..];
    }
  }

  /** Checking two lists one after the other reports what one check of both together reports. */
  lemma {:induction false} NewIdsAppend(a: seq<Json>, b: seq<Json>, seen: set<Json>)
    ensures NewIds(a + b, seen) == NewIds(a, seen) + NewIds(b, seen + Elems(NewIds(a, seen)))
    decreases |a|
  {
    if a == [] {
      assert a + b == b;
      assert seen + Elems([]) == seen;
    } else {
      assert (a + b)[1..] == a[1..] + b;
      if Truthy(a[0]) && a[0] !in seen {
        NewIdsAppend(a[1..], b, seen + {a[0]});
        assert seen + {a[0]} + Elems(NewIds(a[1..], seen + {a[0]})) == seen + Elems(NewIds(a, seen));
      } else {
        NewIdsAppend(a[1..], b, seen);
      }
    }
  }

  /** The lists of one monitoring run, one after the other. */
  function Flatten<T>(xs: seq<seq<T>>): (r: seq<T>)
  {
    if xs == [] then [] else Flatten(xs[..|xs| - 1]) + xs[|xs| - 1]
  }

  /** The monitor after the given checks: what each check reported, and the `seen_posts` set. */
  function Monitored(checks: seq<seq<Json>>): (r: (seq<seq<Json>>, set<Json>))
  {
    if checks == [] then ([], {})
    else
      var before := Monitored(checks[..|checks| - 1]);
      var added := NewIds(checks[|checks| - 1], before.1);
      (before.0 + [added], before.1 + Elems(added))
  }

  /** All the reports of a run are one check over all the ids fetched, and `seen_posts` holds what was reported. */
  lemma {:induction false} MonitoredIsOneCheck(checks: seq<seq<Json>>)
    ensures Flatten(Monitored(checks).0) == NewIds(Flatten(checks), {})
    ensures Monitored(checks).1 == Elems(Flatten(Monitored(checks).0))
  {
    if checks != [] {
      var pre := checks[..|checks| - 1];
      var last := checks[|checks| - 1];
      MonitoredIsOneCheck(pre);
      var before := Monitored(pre);
      NewIdsAppend(Flatten(pre), last, {});
      assert {} + Elems(NewIds(Flatten(pre), {})) == before.1;
      var reps := before.0 + [NewIds(last, before.1)];
      assert reps[..|reps| - 1] == before.0;
      assert Flatten(reps) == Flatten(before.0) + NewIds(last, before.1);
    }
  }

  /**
   * `monitor_feeds` reports every post id as new at most once over the whole
   * run, only truthy ids, and every truthy id it fetched.
   */
  lemma ReportedOnce(checks: seq<seq<Json>>)
    ensures Distinct(Flatten(Monitored(checks).0))
    ensures forall x :: x in Flatten(Monitored(checks).0) <==> x in Flatten(checks) && Truthy(x)
  {
    MonitoredIsOneCheck(checks);
    NewIdsMeaning(Flatten(checks), {});
  }

  /** The id lists fetched in one round, feed by feed; unknown feed types and falsy results are skipped. */
  function RoundChecks(feeds: seq<string>, round: nat, fetch: (nat, string) -> Option<seq<Obj>>): (r: seq<seq<Json>>)
  {
    if feeds == [] then []
    else
      var f := feeds[|feeds| - 1];
      RoundChecks(feeds[..|feeds| - 1], round, fetch)
        + (if f in FEED_TYPES && fetch(round, f).Some? then [PostIds(fetch(round, f).value)] else [])
  }

  /** The id lists fetched in the given number of rounds. */
  function Checks(feeds: seq<string>, rounds: nat, fetch: (nat, string) -> Option<seq<Obj>>): (r: seq<seq<Json>>)
  {
    if rounds == 0 then [] else Checks(feeds, rounds - 1, fetch) + RoundChecks(feeds, rounds - 1, fetch)
  }

  /** The inner loop of `monitor_feeds`: the new ids of one feed, recorded in `seen`. */
  method CheckFeed(ids: seq<Json>, seen: set<Json>) returns (added: seq<Json>, seen': set<Json>)
    ensures added == NewIds(ids, seen)
    ensures seen' == seen + Elems(added)
  {
    added, seen' := [], seen;
    for i := 0 to |ids|
      invariant added + NewIds(ids[i..], seen') == NewIds(ids, seen)
      invariant seen' == seen + Elems(added)
    {
      assert ids[i..][1..] == ids[i + 1..];
      if Truthy(ids[i]) && ids[i] !in seen' {
        added := added + [ids[i]];
        seen' := seen' + {ids[i]};
      }
    }
    assert ids[|ids|..] == [];
  }

  /** The checks of one feed in a round: none for an unknown feed type or a falsy result. */
  function FeedCheck(f: string, round: nat, fetch: (nat, string) -> Option<seq<Obj>>): (r: seq<seq<Json>>)
  {
    if f in FEED_TYPES && fetch(round, f).Some? then [PostIds(fetch(round, f).value)] else []
  }

  lemma RoundChecksStep(feeds: seq<string>, j: nat, round: nat, fetch: (nat, string) -> Option<seq<Obj>>)
    requires j < |feeds|
    ensures RoundChecks(feeds[..j + 1], round, fetch) == RoundChecks(feeds[..j], round, fetch) + FeedCheck(feeds[j], round, fetch)
  {
    assert feeds[..j + 1][..j] == feeds[..j];
  }

  lemma MonitoredStep(checks: seq<seq<Json>>, ids: seq<Json>)
    ensures Monitored(checks + [ids]).0 == Monitored(checks).0 + [NewIds(ids, Monitored(checks).1)]
    ensures Monitored(checks + [ids]).1 == Monitored(checks).1 + Elems(NewIds(ids, Monitored(checks).1))
  {
    assert (checks + [ids])[..|checks|] == checks;
  }

  /** One round of `monitor_feeds`: every named feed in turn. */
  method MonitorRound(feeds: seq<string>, round: nat, fetch: (nat, string) -> Option<seq<Obj>>,
                      reports: seq<seq<Json>>, seen: set<Json>, ghost checks: seq<seq<Json>>)
    returns (reports': seq<seq<Json>>, seen': set<Json>, ghost checks': seq<seq<Json>>)
    requires (reports, seen) == Monitored(checks)
    ensures checks' == checks + RoundChecks(feeds, round, fetch)
    ensures (reports', seen') == Monitored(checks')
  {
    reports', seen', checks' := reports, seen, checks;
    for j := 0 to |feeds|
      invariant checks' == checks + RoundChecks(feeds[..j], round, fetch)
      invariant (reports', seen') == Monitored(checks')
    {
      RoundChecksStep(feeds, j, round, fetch);
      var f := feeds[j];
      if f !in FEED_TYPES {
        continue;
      }
      var found := fetch(round, f);
      if found.None? {
        continue;
      }
      var ids := PostIds(found.value);
      var added, seen'' := CheckFeed(ids, seen');
      MonitoredStep(checks', ids);
      checks' := checks' + [ids];
      reports', seen' := reports' + [added], seen'';
    }
    assert feeds[..|feeds|] == feeds;
  }

  // ---------------------------------------------------------------- auto-engagement

  /** The actions `auto_engage` performs; any other name in its list is skipped without counting. */
  datatype EngageAction = ActLike | ActRepost | ActReply

  function ActionNamed(name: string): (a: Option<EngageAction>)
  {
    if name == "like" then Some(ActLike)
    else if name == "repost" then Some(ActRepost)
    else if name == "reply" then Some(ActReply)
    else None
  }

  /** One façade call of the loop: like, repost, or a reply thanking for `keyword`. */
  datatype Performed = Performed(action: EngageAction, postId: Json, keyword: string)

  /** What is left of the hour's budget once `count` actions were taken. */
  function Budget(count: int, max: int): (b: nat)
  {
    if count >= max then 0 else max - count
  }

  /** The actions a list names, in order, unknown names dropped. */
  function Known(actions: seq<string>): (r: seq<EngageAction>)
  {
    if actions == [] then []
    else (if ActionNamed(actions[0]).Some? then [ActionNamed(actions[0]).value] else []) + Known(actions[1..])
  }

  function ActionsOf(done: seq<Performed>): (r: seq<EngageAction>)
    ensures |r| == |done|
  {
    seq(|done|, i requires 0 <= i < |done| => done[i].action)
  }

  /** The innermost loop: each known action on one post while the budget lasts. */
  function PostActions(actions: seq<string>, postId: Json, keyword: string, count: int, max: int): (r: seq<Performed>)
    ensures |r| <= Budget(count, max)
    decreases |actions|
  {
    if actions == [] || count >= max then []
    else match ActionNamed(actions[0])
      case None => PostActions(actions[1..], postId, keyword, count, max)
      case Some(a) => [Performed(a, postId, keyword)] + PostActions(actions[1..], postId, keyword, count + 1, max)
  }

  /** Every action of that loop is on that post, for that keyword. */
  lemma {:induction false} PostActionsTargets(actions: seq<string>, postId: Json, keyword: string, count: int, max: int)
    ensures forall p :: p in PostActions(actions, postId, keyword, count, max) ==> p.postId == postId && p.keyword == keyword
    decreases |actions|
  {
    if actions != [] && count < max {
      PostActionsTargets(actions[1..], postId, keyword, count, max);
      PostActionsTargets(actions[1..], postId, keyword, count + 1, max);
    }
  }

  /** A post receives the first known actions of the list, as many as the budget allows. */
  lemma {:induction false} PostActionsAreKnownPrefix(actions: seq<string>, postId: Json, keyword: string, count: int, max: int)
    ensures ActionsOf(PostActions(actions, postId, keyword, count, max)) == Take(Known(actions), Budget(count, max))
    decreases |actions|
  {
    if actions == [] || count >= max {
    } else {
      var r := PostActions(actions, postId, keyword, count, max);
      match ActionNamed(actions[0])
      case None =>
        PostActionsAreKnownPrefix(actions[1..], postId, keyword, count, max);
        assert Known(actions) == Known(actions[1..]);
      case Some(a) =>
        var next := count + 1;
        var rest := PostActions(actions[1..], postId, keyword, next, max);
        PostActionsAreKnownPrefix(actions[1..], postId, keyword, next, max);
        assert r == [Performed(a, postId, keyword)] + rest;
        ActionsOfCons(Performed(a, postId, keyword), rest);
        assert Known(actions) == [a] + Known(actions[1..]);
        TakeCons(a, Known(actions[1..]), Budget(count, max), Budget(next, max));
    }
  }

  lemma ActionsOfCons(p: Performed, rest: seq<Performed>)
    ensures ActionsOf([p] + rest) == [p.action] + ActionsOf(rest)
  {
  }

  lemma TakeCons<T>(x: T, s: seq<T>, n: int, m: int)
    requires n >= 1 && m == n - 1
    ensures Take([x] + s, n) == [x] + Take(s, m)
  {
    assert ([x] + s)[1..] == s;
  }

  /** The loop over the posts of one search: posts without a truthy id are skipped. */
  function PostsActions(posts: seq<Obj>, actions: seq<string>, keyword: string, count: int, max: int): (r: seq<Performed>)
    ensures |r| <= Budget(count, max)
    decreases |posts|
  {
    if posts == [] then []
    else
      var id := Get(posts[0], "id");
      var here := if Truthy(id) then PostActions(actions, id, keyword, count, max) else [];
      var rest := PostsActions(posts[1..], actions, keyword, count + |here|, max);
      here + rest
  }

  /** Every action of a search's loop is for that keyword, on a truthy id of one of its posts. */
  lemma {:induction false} PostsActionsTargets(posts: seq<Obj>, actions: seq<string>, keyword: string, count: int, max: int)
    ensures forall p :: p in PostsActions(posts, actions, keyword, count, max) ==>
              p.keyword == keyword && Truthy(p.postId) && p.postId in PostIds(posts)
    decreases |posts|
  {
    if posts != [] {
      var id := Get(posts[0], "id");
      var here := if Truthy(id) then PostActions(actions, id, keyword, count, max) else [];
      var c := count + |here|;
      var rest := PostsActions(posts[1..], actions, keyword, c, max);
      assert PostsActions(posts, actions, keyword, count, max) == here + rest;
      PostActionsTargets(actions, id, keyword, count, max);
      PostsActionsTargets(posts[1..], actions, keyword, c, max);
      PostIdsCons(posts);
      forall p: Performed | p in here + rest
        ensures p.keyword == keyword && Truthy(p.postId) && p.postId in PostIds(posts)
      {
        if p !in here {
          assert p in rest;
        }
      }
    }
  }

  lemma PostIdsCons(posts: seq<Obj>)
    requires posts != []
    ensures Get(posts[0], "id") in PostIds(posts)
    ensures forall x :: x in PostIds(posts[1..]) ==> x in PostIds(posts)
  {
    assert PostIds(posts) == [Get(posts[0], "id")] + PostIds(posts[1..]);
  }

  /** One keyword of a round: at most the first two posts its search returned; a failed search acts on nothing. */
  function KeywordActions(found: Option<seq<Obj>>, actions: seq<string>, keyword: string, count: int, max: int): (r: seq<Performed>)
    ensures |r| <= Budget(count, max)
  {
    if found.None? then [] else PostsActions(Take(found.value, 2), actions, keyword, count, max)
  }

  function Total(per: seq<seq<Performed>>): (n: nat)
  {
    if per == [] then 0 else Total(per[..|per| - 1]) + |per[|per| - 1]|
  }

  /** A round over every keyword; `search(round, k)` is the posts `search_posts(k)` returned, None when it raised. */
  function RoundActions(keywords: seq<string>, search: (nat, string) -> Option<seq<Obj>>, round: nat,
                        actions: seq<string>, count: int, max: int): (r: seq<seq<Performed>>)
    ensures |r| == |keywords|
    ensures Total(r) <= Budget(count, max)
    decreases |keywords|
  {
    if keywords == [] then []
    else
      var first := KeywordActions(search(round, keywords[0]), actions, keywords[0], count, max);
      var rest := RoundActions(keywords[1..], search, round, actions, count + |first|, max);
      TotalCons(first, rest);
      [first] + rest
  }

  /**
   * Within a round, each keyword acts only on posts among the first two its
   * search returned, and every action it takes is credited to it.
   */
  lemma {:induction false} TwoPostsPerKeyword(keywords: seq<string>, search: (nat, string) -> Option<seq<Obj>>, round: nat,
                                              actions: seq<string>, count: int, max: int, k: nat)
    requires k < |keywords|
    ensures forall p :: p in RoundActions(keywords, search, round, actions, count, max)[k] ==>
              p.keyword == keywords[k] && search(round, keywords[k]).Some?
              && p.postId in PostIds(Take(search(round, keywords[k]).value, 2))
    decreases |keywords|
  {
    var first := KeywordActions(search(round, keywords[0]), actions, keywords[0], count, max);
    if k > 0 {
      TwoPostsPerKeyword(keywords[1..], search, round, actions, count + |first|, max, k - 1);
    } else if search(round, keywords[0]).Some? {
      PostsActionsTargets(Take(search(round, keywords[0]).value, 2), actions, keywords[0], count, max);
    }
  }

  lemma {:induction false} TotalCons(first: seq<Performed>, rest: seq<seq<Performed>>)
    ensures Total([first] + rest) == |first| + Total(rest)
    decreases |rest|
  {
    if rest != [] {
      var all := [first] + rest;
      assert all[..|all| - 1] == [first] + rest[..|rest| - 1];
      TotalCons(first, rest[..|rest| - 1]);
    }
  }

  /** The inputs of one `auto_engage` run: `clock(0)` is the start, `clock(r + 1)` the time at round `r`. */
  datatype Engage = Engage(keywords: seq<string>, actions: seq<string>, max: int,
                           clock: nat -> int, search: (nat, string) -> Option<seq<Obj>>)

  /**
   * One round of the loop: whether the hourly reset happened, the reset time
   * after it, the count the round started from, what each keyword did, and the
   * count after it.
   */
  datatype Round = Round(reset: bool, lastReset: int, countBefore: int, perKeyword: seq<seq<Performed>>, countAfter: int)

  /** A round of `auto_engage` from the count and reset time the previous rounds left. */
  function RoundAt(e: Engage, round: nat, count: int, lastReset: int): (r: Round)
    ensures r.countBefore == (if r.reset then 0 else count)
    ensures r.countAfter == r.countBefore + Total(r.perKeyword)
    ensures r.countBefore >= e.max ==> r.perKeyword == []
    ensures r.countBefore < e.max ==> r.countAfter <= e.max
  {
    var now := e.clock(round + 1);
    var reset := now - lastReset >= 3600;
    var before := if reset then 0 else count;
    var at := if reset then now else lastReset;
    var per := if before >= e.max then [] else RoundActions(e.keywords, e.search, round, e.actions, before, e.max);
    Round(reset, at, before, per, before + Total(per))
  }

  /** The count the previous rounds left: `action_count` at the top of the next round. */
  function CountAfter(log: seq<Round>): (n: int)
  {
    if log == [] then 0 else log[|log| - 1].countAfter
  }

  /** `last_reset` at the top of the next round. */
  function ResetAfter(e: Engage, log: seq<Round>): int
  {
    if log == [] then e.clock(0) else log[|log| - 1].lastReset
  }

  /** The first `n` rounds of a run. */
  function Rounds(e: Engage, n: nat): (log: seq<Round>)
    ensures |log| == n
  {
    if n == 0 then []
    else
      var log := Rounds(e, n - 1);
      log + [RoundAt(e, n - 1, CountAfter(log), ResetAfter(e, log))]
  }

  /**
   * How the count runs through a log: each round starts from 0 after a reset
   * (and at the very start), otherwise from where the previous round stopped,
   * adds the calls it made, never passes the limit once below it, and makes no
   * call when it starts at or over the limit.
   */
  predicate CountedLog(log: seq<Round>, max: int)
  {
    forall i :: 0 <= i < |log| ==> CountedAt(log, i, max)
  }

  predicate CountedAt(log: seq<Round>, i: nat, max: int)
    requires i < |log|
  {
    log[i].countBefore == (if log[i].reset || i == 0 then 0 else log[i - 1].countAfter)
    && log[i].countAfter == log[i].countBefore + Total(log[i].perKeyword)
    && (log[i].countBefore < max ==> log[i].countAfter <= max)
    && (log[i].countBefore >= max ==> log[i].perKeyword == [])
  }

  /** Every run of `auto_engage` keeps its count that way. */
  lemma {:induction false} RoundsCounted(e: Engage, n: nat)
    ensures CountedLog(Rounds(e, n), e.max)
  {
    if n > 0 {
      var log := Rounds(e, n - 1);
      var r := RoundAt(e, n - 1, CountAfter(log), ResetAfter(e, log));
      assert Rounds(e, n) == log + [r];
      RoundsCounted(e, n - 1);
      CountedLogSnoc(log, r, e.max);
    }
  }

  /** A round that follows the counting rule extends a counted log. */
  lemma CountedLogSnoc(log: seq<Round>, r: Round, max: int)
    requires CountedLog(log, max)
    requires r.countBefore == (if r.reset then 0 else CountAfter(log))
    requires r.countAfter == r.countBefore + Total(r.perKeyword)
    requires r.countBefore < max ==> r.countAfter <= max
    requires r.countBefore >= max ==> r.perKeyword == []
    ensures CountedLog(log + [r], max)
  {
    var log' := log + [r];
    forall i | 0 <= i < |log'|
      ensures CountedAt(log', i, max)
    {
      if i < |log| {
        assert CountedAt(log, i, max);
        assert log'[i] == log[i];
        if i > 0 { assert log'[i - 1] == log[i - 1]; }
      } else {
        assert log'[i] == r;
        if i > 0 { assert log'[i - 1] == log[|log| - 1]; }
      }
    }
  }

  /** The round where the current hourly window began: the last reset at or before `j`, or the first round. */
  function WindowStart(log: seq<Round>, j: nat): (k: nat)
    requires j < |log|
    ensures k <= j
  {
    if log[j].reset || j == 0 then j else WindowStart(log, j - 1)
  }

  /** The façade calls made in a stretch of rounds. */
  function Calls(log: seq<Round>): (n: nat)
  {
    if log == [] then 0 else Calls(log[..|log| - 1]) + Total(log[|log| - 1].perKeyword)
  }

  /**
   * In a log kept that way, the calls made since the last hourly reset are
   * the count, and never more than the limit (nor any when it is not positive).
   */
  lemma {:induction false} WindowWithinBudget(log: seq<Round>, max: int, j: nat)
    requires CountedLog(log, max) && j < |log|
    ensures Calls(log[WindowStart(log, j)..j + 1]) == log[j].countAfter
    ensures log[j].countAfter <= Max(max, 0)
    decreases j
  {
    var k := WindowStart(log, j);
    var r := log[j];
    assert CountedAt(log, j, max);
    assert Total([]) == 0;
    if r.reset || j == 0 {
      assert k == j;
      assert log[k..j + 1] == [r];
      assert [r][..0] == [];
      assert Calls([r]) == Total(r.perKeyword);
    } else {
      assert k == WindowStart(log, j - 1);
      WindowWithinBudget(log, max, j - 1);
      var w := log[k..j + 1];
      assert w[..|w| - 1] == log[k..j] && w[|w| - 1] == r;
      assert Calls(w) == Calls(log[k..j]) + Total(r.perKeyword);
    }
  }

  /**
   * The rate limit of `auto_engage`: within each hourly window the loop makes
   * at most `max_actions_per_hour` façade calls, and the count it shows is
   * the number it made.
   */
  lemma RateLimitHolds(e: Engage, n: nat, j: nat)
    requires j < n
    ensures Calls(Rounds(e, n)[WindowStart(Rounds(e, n), j)..j + 1]) == Rounds(e, n)[j].countAfter <= Max(e.max, 0)
  {
    RoundsCounted(e, n);
    WindowWithinBudget(Rounds(e, n), e.max, j);
  }

  lemma PostActionsStep(actions: seq<string>, postId: Json, keyword: string, count: int, max: int, i: nat)
    requires i < |actions| && count < max
    ensures PostActions(actions[i..], postId, keyword, count, max)
      == (if ActionNamed(actions[i]).Some? then [Performed(ActionNamed(actions[i]).value, postId, keyword)] else [])
         + PostActions(actions[i + 1..], postId, keyword, if ActionNamed(actions[i]).Some? then count + 1 else count, max)
  {
    assert actions[i..][1..] == actions[i + 1..];
  }

  lemma PostsActionsStep(posts: seq<Obj>, actions: seq<string>, keyword: string, count: int, max: int, i: nat,
                          here: seq<Performed>, c: int)
    requires i < |posts|
    requires here == if Truthy(Get(posts[i], "id")) then PostActions(actions, Get(posts[i], "id"), keyword, count, max) else []
    requires c == count + |here|
    ensures PostsActions(posts[i..], actions, keyword, count, max) == here + PostsActions(posts[i + 1..], actions, keyword, c, max)
  {
    assert posts[i..][0] == posts[i] && posts[i..][1..] == posts[i + 1..];
  }


  lemma RoundActionsStep(keywords: seq<string>, search: (nat, string) -> Option<seq<Obj>>, round: nat,
                         actions: seq<string>, count: int, max: int, i: nat)
    requires i < |keywords|
    ensures RoundActions(keywords[i..], search, round, actions, count, max)
      == [KeywordActions(search(round, keywords[i]), actions, keywords[i], count, max)]
         + RoundActions(keywords[i + 1..], search, round, actions,
                        count + |KeywordActions(search(round, keywords[i]), actions, keywords[i], count, max)|, max)
  {
    assert keywords[i..][1..] == keywords[i + 1..];
  }

  /**
   * Regrouping after a snoc, proved apart from the loop step that needs it so
   * that the step's own proof does not reason about sequence extensionality.
   */
  lemma SnocAssoc<T>(xs: seq<T>, x: T, ys: seq<T>)
    ensures xs + ([x] + ys) == (xs + [x]) + ys
  {
  }

  lemma TotalSnoc(per: seq<seq<Performed>>, done: seq<Performed>)
    ensures Total(per + [done]) == Total(per) + |done|
  {
    assert (per + [done])[..|per|] == per;
  }

  /** The loop over the actions for one post, stopping once the budget is spent. */
  method ActOnPost(actions: seq<string>, postId: Json, keyword: string, count: int, max: int)
    returns (done: seq<Performed>, count': int)
    ensures done == PostActions(actions, postId, keyword, count, max)
    ensures count' == count + |done|
  {
    done, count' := [], count;
    var i := 0;
    while i < |actions|
      invariant 0 <= i <= |actions|
      invariant count' == count + |done|
      invariant done + PostActions(actions[i..], postId, keyword, count', max) == PostActions(actions, postId, keyword, count, max)
      decreases |actions| - i
    {
      if count' >= max {
        break;
      }
      PostActionsStep(actions, postId, keyword, count', max, i);
      var a := ActionNamed(actions[i]);
      if a.Some? {
        done := done + [Performed(a.value, postId, keyword)];
        count' := count' + 1;
      }
      i := i + 1;
    }
    assert actions[|actions|..] == [];
  }

  /** One post more keeps the invariant of the loop over a search's posts. */
  lemma ActOnKeywordStep(posts: seq<Obj>, actions: seq<string>, keyword: string, count: int, max: int,
                         i: nat, done: seq<Performed>, count': int, here: seq<Performed>, c: int)
    requires i < |posts| && c == count' + |here|
    requires done + PostsActions(posts[i..], actions, keyword, count', max) == PostsActions(posts, actions, keyword, count, max)
    requires here == if Truthy(Get(posts[i], "id")) then PostActions(actions, Get(posts[i], "id"), keyword, count', max) else []
    ensures (done + here) + PostsActions(posts[i + 1..], actions, keyword, c, max)
            == PostsActions(posts, actions, keyword, count, max)
  {
    PostsActionsStep(posts, actions, keyword, count', max, i, here, c);
    ghost var tail := PostsActions(posts[i + 1..], actions, keyword, c, max);
    assert done + (here + tail) == (done + here) + tail;
  }

  /** The loop over the first two posts a keyword's search returned. */
  method ActOnKeyword(found: Option<seq<Obj>>, actions: seq<string>, keyword: string, count: int, max: int)
    returns (done: seq<Performed>, count': int)
    ensures done == KeywordActions(found, actions, keyword, count, max)
    ensures count' == count + |done|
  {
    done, count' := [], count;
    if found.None? {
      return;
    }
    var posts := Take(found.value, 2);
    for i := 0 to |posts|
      invariant count' == count + |done|
      invariant done + PostsActions(posts[i..], actions, keyword, count', max) == PostsActions(posts, actions, keyword, count, max)
    {
      var id := Get(posts[i], "id");
      if !Truthy(id) {
        ActOnKeywordStep(posts, actions, keyword, count, max, i, done, count', [], count');
        assert done + [] == done;
        continue;
      }
      var here, c := ActOnPost(actions, id, keyword, count', max);
      ActOnKeywordStep(posts, actions, keyword, count, max, i, done, count', here, c);
      done, count' := done + here, c;
    }
    assert posts[|posts|..] == [];
  }

  /** One keyword more keeps the invariant of the loop over the keywords. */
  lemma EngageRoundStep(keywords: seq<string>, search: (nat, string) -> Option<seq<Obj>>, round: nat,
                        actions: seq<string>, count: int, max: int,
                        i: nat, per: seq<seq<Performed>>, count': int, done: seq<Performed>, c: int)
    requires i < |keywords| && c == count' + |done|
    requires per + RoundActions(keywords[i..], search, round, actions, count', max)
             == RoundActions(keywords, search, round, actions, count, max)
    requires done == KeywordActions(search(round, keywords[i]), actions, keywords[i], count', max)
    ensures (per + [done]) + RoundActions(keywords[i + 1..], search, round, actions, c, max)
            == RoundActions(keywords, search, round, actions, count, max)
    ensures Total(per + [done]) == Total(per) + |done|
  {
    RoundActionsStep(keywords, search, round, actions, count', max, i);
    SnocAssoc(per, done, RoundActions(keywords[i + 1..], search, round, actions, count' + |done|, max));
    TotalSnoc(per, done);
  }

  /** The loop over the keywords of one round. */
  method EngageRound(keywords: seq<string>, search: (nat, string) -> Option<seq<Obj>>, round: nat,
                     actions: seq<string>, count: int, max: int)
    returns (per: seq<seq<Performed>>, count': int)
    ensures per == RoundActions(keywords, search, round, actions, count, max)
    ensures count' == count + Total(per)
  {
    per, count' := [], count;
    for i := 0 to |keywords|
      invariant count' == count + Total(per)
      invariant per + RoundActions(keywords[i..], search, round, actions, count', max)
                == RoundActions(keywords, search, round, actions, count, max)
    {
      var done, c := ActOnKeyword(search(round, keywords[i]), actions, keywords[i], count', max);
      EngageRoundStep(keywords, search, round, actions, count, max, i, per, count', done, c);
      per, count' := per + [done], c;
    }
    assert keywords[|keywords|..] == [];
  }

  /** The body of the `auto_engage` loop: the hourly reset, then the round unless the budget is spent. */
  method NextRound(e: Engage, round: nat, count: int, lastReset: int) returns (r: Round)
    ensures r == RoundAt(e, round, count, lastReset)
  {
    var now := e.clock(round + 1);
    var reset := now - lastReset >= 3600;
    var before, at := count, lastReset;
    if reset {
      before, at := 0, now;
    }
    var per: seq<seq<Performed>> := [];
    var after := before;
    if before < e.max {
      per, after := EngageRound(e.keywords, e.search, round, e.actions, before, e.max);
    }
    r := Round(reset, at, before, per, after);
  }

  // ---------------------------------------------------------------- interactive commands

  /** What one line typed at the `Bot>` prompt asks for. */
  datatype Command =
    | Quit
    | Help
    | Status
    | PostCommand(content: string)
    | LikeCommand(postId: int)
    | RepostCommand(postId: int)
    | ReplyCommand(postId: int, content: string)
    | ConfigCommand
    /** `like`, `repost` or `reply` with an id `int()` refuses. */
    | InvalidPostId
    /** `reply` without a space after the id. */
    | ReplyUsage
    /** `trending`, `latest`, `home` or `explore`, with the number of posts to show. */
    | FeedCommand(feed: string, limit: int)
    /** `monitor` with the comma-separated feed types, each stripped. */
    | MonitorCommand(feeds: seq<string>)
    /** `monitor ` with nothing after it. */
    | MonitorUsage
    | UnknownCommand

  /** `s.split(' ', 1)`: the text before the first space and the text after it, or `s` alone. */
  function SplitOnce(s: string): (r: seq<string>)
    ensures 1 <= |r| <= 2
    ensures forall i :: 0 <= i < |r[0]| ==> r[0][i] != ' '
    ensures |r| == 1 <==> ' ' !in s
    ensures |r| == 1 ==> r[0] == s
    ensures |r| == 2 ==> s == r[0] + " " + r[1]
    decreases |s|
  {
    if s == [] then [s]
    else if s[0] == ' ' then ["", s[1..]]
    else
      var rest := SplitOnce(s[1..]);
      assert s == [s[0]] + s[1..];
      [[s[0]] + rest[0]] + rest[1..]
  }

  /** The arguments of `reply`: an integer id, one space, then the content. */
  function ParseReply(args: string): (c: Command)
    ensures c.ReplyCommand? || c == InvalidPostId || c == ReplyUsage
    ensures c == ReplyUsage <==> ' ' !in args
    ensures c.ReplyCommand? ==> exists id :: args == id + " " + c.content && ParseInt(id) == Some(c.postId)
  {
    var parts := SplitOnce(args);
    if |parts| >= 2 then
      match ParseInt(parts[0])
      case Some(n) => ReplyCommand(n, parts[1])
      case None => InvalidPostId
    else ReplyUsage
  }

  /** The interactive loop's reading of one input line: stripped and lower-cased, then dispatched on its start. */
  function ParseCommand(line: string): (c: Command)
  {
    Dispatch(Lower(Strip(line)))
  }

  /** The feed commands' limit: the second word when `int()` accepts it, 10 otherwise. */
  function FeedLimit(command: string): (n: int)
    ensures |Words(command)| <= 1 ==> n == 10
    ensures |Words(command)| > 1 && ParseInt(Words(command)[1]).Some? ==> n == ParseInt(Words(command)[1]).value
  {
    var parts := Words(command);
    if |parts| > 1 then
      match ParseInt(parts[1])
      case Some(v) => v
      case None => 10
    else 10
  }

  /** `[f.strip() for f in parts]` */
  function StripEach(parts: seq<string>): (r: seq<string>)
    ensures |r| == |parts|
    ensures forall k :: 0 <= k < |r| ==> r[k] == Strip(parts[k])
  {
    seq(|parts|, k requires 0 <= k < |parts| => Strip(parts[k]))
  }

  /** The command chain of the interactive loop, tried in order. */
  function Dispatch(command: string): (c: Command)
    ensures c.ReplyCommand? ==> StartsWith(command, "reply ") && c == ParseReply(command[6..])
    ensures c.FeedCommand? ==> c.feed in FEED_TYPES && StartsWith(command, c.feed)
    ensures c.MonitorCommand? ==> StartsWith(command, "monitor ") && |c.feeds| >= 1
  {
    match FirstCommands(command)
    case Some(c) => c
    case None => FeedsAndRest(command)
  }

  /** The tests both interactive loops start with, up to `reply`; None when none of them matches. */
  function FirstCommands(command: string): (c: Option<Command>)
    ensures c.Some? ==> !c.value.FeedCommand? && !c.value.MonitorCommand? && !c.value.MonitorUsage?
  {
    if command == "quit" || command == "exit" then Some(Quit)
    else if command == "help" then Some(Help)
    else if command == "status" then Some(Status)
    else if StartsWith(command, "post ") then Some(PostCommand(command[5..]))
    else if StartsWith(command, "like ") then
      Some(match ParseInt(command[5..]) case Some(n) => LikeCommand(n) case None => InvalidPostId)
    else if StartsWith(command, "repost ") then
      Some(match ParseInt(command[7..]) case Some(n) => RepostCommand(n) case None => InvalidPostId)
    else if StartsWith(command, "reply ") then Some(ParseReply(command[6..]))
    else None
  }

  /** The command chain of the older interactive loop in `team_bot.py`: no feed or monitor commands. */
  function TeamBotDispatch(command: string): (c: Command)
    ensures !c.FeedCommand? && !c.MonitorCommand? && !c.MonitorUsage?
  {
    match FirstCommands(command)
    case Some(c) => c
    case None => if command == "config" then ConfigCommand else UnknownCommand
  }

  /**
   * The two interactive loops agree on every line except the feed and monitor
   * commands, which the older loop reports as unknown.
   */
  lemma TeamBotDispatchAgrees(command: string)
    ensures var c := Dispatch(command);
      if c.FeedCommand? || c.MonitorCommand? || c.MonitorUsage? then TeamBotDispatch(command) == UnknownCommand
      else TeamBotDispatch(command) == c
  {
    if FirstCommands(command).None? && command == "config" {
      assert !StartsWith(command, "trending") && !StartsWith(command, "latest") by { assert command[0] == 'c'; }
      assert !StartsWith(command, "home") && !StartsWith(command, "explore") by { assert command[0] == 'c'; }
      assert !StartsWith(command, "monitor ") by { assert |command| < 8; }
    }
  }

  /** The rest of the chain, past the post commands: the feeds, `monitor`, `config`. */
  function FeedsAndRest(command: string): (c: Command)
    ensures !c.ReplyCommand?
    ensures c.FeedCommand? ==> c.feed in FEED_TYPES && StartsWith(command, c.feed)
    ensures c.MonitorCommand? ==> StartsWith(command, "monitor ") && |c.feeds| >= 1
  {
    if StartsWith(command, "trending") then FeedCommand("trending", FeedLimit(command))
    else if StartsWith(command, "latest") then FeedCommand("latest", FeedLimit(command))
    else if StartsWith(command, "home") then FeedCommand("home", FeedLimit(command))
    else if StartsWith(command, "explore") then FeedCommand("explore", FeedLimit(command))
    else if StartsWith(command, "monitor ") then
      (var arg := Strip(command[8..]);
       if arg == "" then MonitorUsage else MonitorCommand(StripEach(Split(arg, ","))))
    else if command == "config" then ConfigCommand
    else UnknownCommand
  }

  /**
   * Typing a feed's name and a number shows that many posts of the feed,
   * the number read back exactly.
   */
  lemma FeedRoundTrip(feed: string, n: int)
    requires feed in FEED_TYPES
    ensures ParseCommand(feed + " " + IntToString(n)) == FeedCommand(feed, n)
  {
    var id := IntToString(n);
    var line := feed + " " + id;
    FeedWord(feed);
    NumberWord(n);
    calc {
      ParseCommand(line);
      { TypedAsRead(feed, id); }
      Dispatch(line);
      { assert StartsWith(line, feed) by { assert line[..|feed|] == feed; }
        DispatchFeed(line, feed); }
      FeedCommand(feed, FeedLimit(line));
      { WordsOfTwo(feed, id);
        ParseIntOfIntToString(n); }
      FeedCommand(feed, n);
    }
  }

  /** `str(n)` is one word without capitals. */
  lemma NumberWord(n: int)
    ensures IntToString(n) != "" && IsLower(IntToString(n))
    ensures forall i :: 0 <= i < |IntToString(n)| ==> !IsSpace(IntToString(n)[i])
  {
    IntToStringShape(n);
  }

  /** A lower-case word, a space and a lower-case word, with no whitespace at either end, are read as typed. */
  lemma TypedAsRead(word: string, arg: string)
    requires word != "" && IsLower(word) && !IsSpace(word[0])
    requires arg != "" && IsLower(arg) && forall i :: 0 <= i < |arg| ==> !IsSpace(arg[i])
    ensures Lower(Strip(word + " " + arg)) == word + " " + arg
  {
    var line := word + " " + arg;
    assert IsLower(line) by {
      forall i | 0 <= i < |line| ensures !('A' <= line[i] <= 'Z') {
        if i > |word| { assert line[i] == arg[i - |word| - 1]; }
      }
    }
    assert !IsSpace(line[0]) by { assert line[0] == word[0]; }
    assert !IsSpace(line[|line| - 1]) by { assert line[|line| - 1] == arg[|arg| - 1]; }
    NormalLine(line);
  }

  /** A feed's name is one lower-case word. */
  lemma FeedWord(feed: string)
    requires feed in FEED_TYPES
    ensures feed != "" && IsLower(feed)
    ensures forall i :: 0 <= i < |feed| ==> !IsSpace(feed[i])
  {
  }

  /** A line starting with a feed's name reaches that feed's branch: no earlier test matches it. */
  lemma DispatchFeed(command: string, feed: string)
    requires feed in FEED_TYPES && StartsWith(command, feed)
    ensures Dispatch(command) == FeedCommand(feed, FeedLimit(command))
  {
    FeedTests(command, feed);
  }

  /** Which of the interactive loop's tests a line starting with a feed's name passes. */
  lemma FeedTests(command: string, feed: string)
    requires feed in FEED_TYPES && StartsWith(command, feed)
    ensures command != "quit" && command != "exit" && command != "help" && command != "status"
    ensures !StartsWith(command, "post ") && !StartsWith(command, "like ")
    ensures !StartsWith(command, "repost ") && !StartsWith(command, "reply ")
    ensures StartsWith(command, "trending") <==> feed == "trending"
    ensures StartsWith(command, "latest") <==> feed == "latest"
    ensures StartsWith(command, "home") <==> feed == "home"
  {
    assert command[..|feed|] == feed;
    assert command[0] == feed[0] && command[1] == feed[1] && command[2] == feed[2];
  }

  /** A line beginning with `reply ` reaches the reply branch: no earlier test matches it. */
  lemma DispatchReply(command: string)
    requires StartsWith(command, "reply ")
    ensures Dispatch(command) == ParseReply(command[6..])
  {
    ReplyIsNoEarlierCommand(command);
  }

  lemma ReplyIsNoEarlierCommand(command: string)
    requires StartsWith(command, "reply ")
    ensures command != "quit" && command != "exit" && command != "help" && command != "status"
    ensures !StartsWith(command, "post ") && !StartsWith(command, "like ") && !StartsWith(command, "repost ")
  {
    assert command[0] == 'r' && command[3] == 'l';
  }

  predicate IsLower(s: string) { forall i :: 0 <= i < |s| ==> !('A' <= s[i] <= 'Z') }

  lemma LowerShape(s: string)
    ensures IsLower(Lower(s))
    ensures forall i :: 0 <= i < |s| ==> (Lower(s)[i] == ' ' <==> s[i] == ' ')
  {
  }

  /**
   * A parsed reply carries a non-empty, lower-cased content: the line was
   * stripped, so a space right before its end cannot have split it, and it was
   * lower-cased before the split.
   */
  lemma ReplyContentShape(line: string)
    requires ParseCommand(line).ReplyCommand?
    ensures ParseCommand(line).content != ""
    ensures IsLower(ParseCommand(line).content)
  {
    var stripped := Strip(line);
    var k := ReplyContentAt(line);
    LowerShape(stripped);
    SuffixLower(Lower(stripped), k);
    if k == |stripped| {
      assert false;
    }
  }

  /** The content of a parsed reply is the stripped, lower-cased line after some space past `reply`. */
  lemma ReplyContentAt(line: string) returns (k: nat)
    requires ParseCommand(line).ReplyCommand?
    ensures 6 < k <= |Strip(line)| && Lower(Strip(line))[k - 1] == ' '
    ensures ParseCommand(line).content == Lower(Strip(line))[k..]
  {
    var command := Lower(Strip(line));
    var c := Dispatch(command);
    assert ParseCommand(line) == c;
    assert StartsWith(command, "reply ") && c == ParseReply(command[6..]);
    var args := command[6..];
    var j := ReplyArgsSplit(args);
    k := 6 + j;
    assert args[j - 1] == command[k - 1];
    assert args[j..] == command[k..];
  }

  /** The content of a parsed reply is what follows the first space of its arguments. */
  lemma ReplyArgsSplit(args: string) returns (j: nat)
    requires ParseReply(args).ReplyCommand?
    ensures 0 < j <= |args| && args[j - 1] == ' '
    ensures ParseReply(args).content == args[j..]
  {
    var parts := SplitOnce(args);
    j := |parts[0]| + 1;
    assert args == parts[0] + " " + parts[1];
    assert args[j..] == parts[1];
  }

  lemma SuffixLower(s: string, k: nat)
    requires IsLower(s) && k <= |s|
    ensures IsLower(s[k..])
  {
    forall i | 0 <= i < |s| - k
      ensures !('A' <= s[k..][i] <= 'Z')
    {
      assert s[k..][i] == s[k + i];
    }
  }

  lemma LowerUnchanged(s: string)
    requires IsLower(s)
    ensures Lower(s) == s
  {
  }

  /**
   * Typing `reply <id> <content>` for a lower-case content that does not end
   * in whitespace asks to reply to that post with exactly that content.
   */
  lemma {:induction false} ReplyRoundTrip(n: int, content: string)
    requires content != "" && IsLower(content) && !IsSpace(content[|content| - 1])
    ensures ParseCommand("reply " + IntToString(n) + " " + content) == ReplyCommand(n, content)
  {
    var id := IntToString(n);
    var line := "reply " + id + " " + content;
    IntToStringShape(n);
    ReplyLineArgs(id, content);
    ReplyLineLower(id, content);
    assert line[0] == 'r' && line[|line| - 1] == content[|content| - 1];
    NormalLine(line);
    DispatchReply(line);
    SplitAtFirstSpace(id, content);
    ParseIntOfIntToString(n);
    assert ParseReply(id + " " + content) == ReplyCommand(n, content);
  }

  /** The arguments of the typed line of a reply follow `reply `. */
  lemma ReplyLineArgs(id: string, content: string)
    ensures |"reply " + id + " " + content| > 6 && ("reply " + id + " " + content)[6..] == id + " " + content
    ensures StartsWith("reply " + id + " " + content, "reply ")
  {
    assert ("reply " + id + " " + content)[..6] == "reply ";
  }

  /** A lower-case line with no surrounding whitespace is left as it is by `strip().lower()`. */
  lemma NormalLine(line: string)
    requires |line| > 0 && !IsSpace(line[0]) && !IsSpace(line[|line| - 1]) && IsLower(line)
    ensures Lower(Strip(line)) == line
  {
    StripUnchanged(line);
    LowerUnchanged(line);
  }

  lemma ReplyLineLower(id: string, content: string)
    requires forall i :: 0 <= i < |id| ==> IsDigit(id[i]) || id[i] == '-'
    requires IsLower(content)
    ensures IsLower("reply " + id + " " + content)
  {
    var line := "reply " + id + " " + content;
    forall i | 0 <= i < |line|
      ensures !('A' <= line[i] <= 'Z')
    {
      if i >= 6 + |id| + 1 {
        assert line[i] == content[i - 6 - |id| - 1];
      } else if i >= 6 && i < 6 + |id| {
        assert line[i] == id[i - 6];
      }
    }
  }

  lemma IntToStringShape(n: int)
    ensures |IntToString(n)| > 0
    ensures forall i :: 0 <= i < |IntToString(n)| ==> IsDigit(IntToString(n)[i]) || IntToString(n)[i] == '-'
    ensures ' ' !in IntToString(n)
  {
  }

  lemma {:induction false} SplitAtFirstSpace(a: string, b: string)
    requires ' ' !in a
    ensures SplitOnce(a + " " + b) == [a, b]
    decreases |a|
  {
    if a == [] {
      assert a + " " + b == [' '] + b;
    } else {
      assert (a + " " + b)[1..] == a[1..] + " " + b;
      SplitAtFirstSpace(a[1..], b);
      assert [a[0]] + a[1..] == a;
    }
  }

  // ---------------------------------------------------------------- the bot

  class TwooterTeamBot {
    const config: ConfigManager.ConfigurationManager
    /** `auth_manager`: null until `start` creates one. */
    var authManager: AuthManager.AuthenticationManager?
    /** The authentication manager the `posting_manager` wraps; null while there is no posting manager. */
    var postingAuth: AuthManager.AuthenticationManager?
    var running: bool
    var autoMode: bool

    /** `__init__`: configuration loaded, nothing started. */
    constructor (config: ConfigManager.ConfigurationManager)
      ensures this.config == config
      ensures authManager == null && postingAuth == null
      ensures !running && !autoMode
    {
      this.config := config;
      authManager := null;
      postingAuth := null;
      running := false;
      autoMode := false;
    }

    /**
     * `start`: a new authentication manager over the persisted token table,
     * the fallback chain, then the posting manager.  A missing API or database
     * section raises before the manager is created, missing credentials or team
     * settings after it; any failure answers false and leaves the flags alone.
     */
    method Start(persisted: map<string, AuthManager.TokenRow>, net: AuthManager.Replies) returns (ok: bool)
      modifies this
      ensures autoMode == old(autoMode)
      ensures config.apiSettings.None? || config.databaseSettings.None? ==> authManager == old(authManager)
      ensures config.apiSettings.Some? && config.databaseSettings.Some? ==>
                fresh(authManager) && authManager.baseUrl == RStripChar(config.apiSettings.value.baseUrl, '/')
      ensures ok <==> config.apiSettings.Some? && config.databaseSettings.Some?
                      && config.botCredentials.Some? && config.teamSettings.Some?
                      && AuthManager.FallbackSpec(AuthManager.AuthState(None, None, persisted),
                                                  StartCredentials(config.botCredentials.value, config.teamSettings.value),
                                                  net).result.Ok?
      ensures ok ==> running && postingAuth == authManager && authManager != null
                     && authManager.State() == AuthManager.FallbackSpec(AuthManager.AuthState(None, None, persisted),
                                                  StartCredentials(config.botCredentials.value, config.teamSettings.value),
                                                  net).state
      ensures !ok ==> running == old(running) && postingAuth == old(postingAuth)
    {
      if config.apiSettings.None? || config.databaseSettings.None? {
        return false;
      }
      var auth := new AuthManager.AuthenticationManager(config.apiSettings.value.baseUrl, persisted);
      authManager := auth;
      if config.botCredentials.None? || config.teamSettings.None? {
        return false;
      }
      var c := StartCredentials(config.botCredentials.value, config.teamSettings.value);
      var r, tried := auth.AuthenticateWithFallback(c, net);
      if r.Err? {
        return false;
      }
      postingAuth := auth;
      running := true;
      ok := true;
    }

    /** `stop`: both flags down; the stored tokens and the managers stay as they are. */
    method Stop()
      modifies this`running, this`autoMode
      ensures !running && !autoMode
      ensures authManager == old(authManager) && postingAuth == old(postingAuth)
    {
      running := false;
      autoMode := false;
    }

    /** `post`: None before `start`, otherwise the posting manager's result, None when it raised. */
    method Post(content: string, parentId: Option<int>, embed: Option<string>, media: Option<seq<string>>, reply: Reply)
      returns (r: Option<Obj>)
      ensures postingAuth == null ==> r == None
      ensures postingAuth != null ==>
                r == Caught(PostingManager.CreatePost(postingAuth.currentToken, content, PostingManager.StrOrInt(parentId),
                                                      embed, media, reply))
    {
      if postingAuth == null {
        return None;
      }
      r := Caught(PostingManager.CreatePost(postingAuth.currentToken, content, PostingManager.StrOrInt(parentId),
                                            embed, media, reply));
    }

    /** `like_post` */
    method LikePost(postId: int, reply: Reply) returns (r: Option<Obj>)
      ensures postingAuth == null ==> r == None
      ensures postingAuth != null ==>
                r == Caught(PostingManager.ActionOutcome(PostingManager.Like, postingAuth.currentToken, postId, reply))
    {
      if postingAuth == null {
        return None;
      }
      r := Caught(PostingManager.ActionOutcome(PostingManager.Like, postingAuth.currentToken, postId, reply));
    }

    /** `repost` */
    method Repost(postId: int, reply: Reply) returns (r: Option<Obj>)
      ensures postingAuth == null ==> r == None
      ensures postingAuth != null ==>
                r == Caught(PostingManager.ActionOutcome(PostingManager.Repost, postingAuth.currentToken, postId, reply))
    {
      if postingAuth == null {
        return None;
      }
      r := Caught(PostingManager.ActionOutcome(PostingManager.Repost, postingAuth.currentToken, postId, reply));
    }

    /** `create_thread` */
    method CreateThread(posts: seq<string>, net: nat -> Reply) returns (r: Option<seq<Obj>>)
      ensures postingAuth == null ==> r == None
      ensures postingAuth != null ==> r == Caught(PostingManager.Thread(postingAuth.currentToken, posts, net).0)
    {
      if postingAuth == null {
        return None;
      }
      var outcome, calls := PostingManager.CreateThread(postingAuth.currentToken, posts, net);
      r := Caught(outcome);
    }

    /**
     * The social helper's `create_post`: a post without embed or media whose
     * result is accepted only with a truthy `data.id`, then wrapped.
     */
    method CreatePost(content: string, parentId: Option<int>, reply: Reply) returns (r: Option<Obj>)
      ensures postingAuth == null ==> r == None
      ensures r.Some? <==> postingAuth != null && reply.Reply?
                           && PostingManager.CreatePost(postingAuth.currentToken, content, PostingManager.StrOrInt(parentId),
                                                        None, None, reply).Ok?
                           && Wrapped(reply.body).Some?
      ensures r.Some? ==> r == Wrapped(reply.body)
    {
      if postingAuth == null {
        return None;
      }
      var outcome := PostingManager.CreatePost(postingAuth.currentToken, content, PostingManager.StrOrInt(parentId),
                                               None, None, reply);
      if outcome.Err? {
        return None;
      }
      r := Wrapped(outcome.value);
    }

    /**
     * `monitor_feeds`: while the bot runs, each round checks every named feed
     * (the trending and latest feeds by default) and reports the posts not seen
     * before.  `fetch(round, feed)` is the feed's post list, None when the
     * façade answered nothing.
     */
    method MonitorFeeds(feedTypes: Option<seq<string>>, rounds: nat, fetch: (nat, string) -> Option<seq<Obj>>)
      returns (reports: seq<seq<Json>>)
      ensures postingAuth == null || !running ==> reports == []
      ensures postingAuth != null && running ==>
                reports == Monitored(Checks(if feedTypes.None? then DEFAULT_FEEDS else feedTypes.value, rounds, fetch)).0
    {
      reports := [];
      if postingAuth == null || !running {
        return;
      }
      var feeds := if feedTypes.None? then DEFAULT_FEEDS else feedTypes.value;
      var seen: set<Json> := {};
      ghost var checks: seq<seq<Json>> := [];
      var round := 0;
      while round < rounds
        invariant round <= rounds
        invariant checks == Checks(feeds, round, fetch)
        invariant (reports, seen) == Monitored(checks)
      {
        reports, seen, checks := MonitorRound(feeds, round, fetch, reports, seen, checks);
        round := round + 1;
      }
    }

    /**
     * `auto_engage`: raises `auto_mode`, then runs rounds while the bot runs,
     * resetting the count each hour, skipping a round once the budget is spent,
     * and otherwise acting on the first two posts each keyword's search
     * returns; `auto_mode` is lowered when the loop ends.  The actions default
     * to liking.
     */
    method AutoEngage(keywords: seq<string>, actions: Option<seq<string>>, maxActionsPerHour: int, rounds: nat,
                      clock: nat -> int, search: (nat, string) -> Option<seq<Obj>>)
      returns (log: seq<Round>)
      modifies this`autoMode
      ensures postingAuth == null ==> log == [] && autoMode == old(autoMode)
      ensures postingAuth != null ==> !autoMode
      ensures postingAuth != null && !running ==> log == []
      ensures postingAuth != null && running ==>
                log == Rounds(Engage(keywords, if actions.None? then ["like"] else actions.value, maxActionsPerHour,
                                     clock, search), rounds)
    {
      log := [];
      if postingAuth == null {
        return;
      }
      var e := Engage(keywords, if actions.None? then ["like"] else actions.value, maxActionsPerHour, clock, search);
      autoMode := true;
      var count := 0;
      var lastReset := clock(0);
      var round := 0;
      while round < rounds && autoMode && running
        invariant round <= rounds && autoMode
        invariant log == Rounds(e, round)
        invariant !running ==> round == 0
        invariant count == CountAfter(log) && lastReset == ResetAfter(e, log)
      {
        var r := NextRound(e, round, count, lastReset);
        log := log + [r];
        count, lastReset := r.countAfter, r.lastReset;
        round := round + 1;
      }
      autoMode := false;
    }
  }
}
