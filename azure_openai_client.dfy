/**
 * The deterministic part of the Azure OpenAI client: the bounded retry loop
 * around one chat completion (the completion itself is an oracle), the
 * 255-character fit of its output, and the endpoint and API-key checks of the
 * authentication diagnostics.
 */
module AzureOpenAiClient {
  import opened Wrappers
  import opened Text
  import opened Attempts

  const MAX_RETRIES: nat := 3
  const NO_CONTENT := "No content generated from Azure OpenAI"
  const RATE_LIMIT_EXCEEDED := "Azure OpenAI rate limit exceeded after 3 retries"

  /** What one completion call gives back: the message content, or the text of the error it raised. */
  datatype LlmReply = Generated(text: Option<string>) | Failed(error: string)

  /** The client's own rate-limit test, which also knows the service's "RateLimitReached" code. */
  predicate IsLlmRateLimit(message: string)
  {
    Contains(message, "429") || Contains(message, "Too Many Requests") || Contains(message, "RateLimitReached")
  }

  predicate LlmRateLimited(a: LlmReply)
  {
    a.Failed? && IsLlmRateLimit(a.error)
  }

  /**
   * The result of the attempt the loop settles on. Empty output is raised as
   * an error inside the same `try`, and its text is no rate limit, so it is
   * re-raised rather than retried.
   */
  function ReplyOutcome(a: LlmReply): (r: Result<string, string>)
    ensures r.Ok? <==> a.Generated? && TruthyStr(a.text)
    ensures a.Generated? && !TruthyStr(a.text) ==> r == Err(NO_CONTENT)
    ensures a.Failed? ==> r == Err(a.error)
    ensures r.Ok? ==> |r.value| <= 255
    ensures a.Generated? && TruthyStr(a.text) && |a.text.value| <= 255 ==> r == Ok(Strip(a.text.value))
    ensures a.Generated? && TruthyStr(a.text) && |a.text.value| > 255 ==> r == Ok(Strip(a.text.value[..252] + "..."))
    ensures r.Ok? ==> Strip(r.value) == r.value
  {
    StripStripped(if a.Generated? && a.text.Some? then FitPost(a.text.value) else "");
    match a
    case Generated(text) =>
      if TruthyStr(text) then Ok(Strip(FitPost(text.value))) else Err(NO_CONTENT)
    case Failed(error) => Err(error)
  }

  /**
   * `generate_social_post`: attempt `k` of the completion answers `llm(k)`.
   * Returns the outcome, the sleeps taken, and the number of completion calls.
   */
  method GenerateSocialPost(llm: nat -> LlmReply) returns (r: Result<string, string>, sleeps: seq<nat>, attempts: nat)
    ensures var n := Settled(llm, LlmRateLimited, 0, MAX_RETRIES);
      && attempts == Min(n + 1, MAX_RETRIES)
      && sleeps == Backoff(5, Min(n, MAX_RETRIES - 1))
      && (n < MAX_RETRIES ==> r == ReplyOutcome(llm(n)))
      && (n == MAX_RETRIES ==> r == Err(RATE_LIMIT_EXCEEDED))
  {
    var retryCount := 0;
    sleeps := [];
    attempts := 0;
    while retryCount < MAX_RETRIES
      invariant retryCount < MAX_RETRIES
      invariant attempts == retryCount
      invariant sleeps == Backoff(5, retryCount)
      invariant forall j :: 0 <= j < retryCount ==> LlmRateLimited(llm(j))
    {
      var reply := llm(retryCount);
      attempts := attempts + 1;
      if !LlmRateLimited(reply) {
        r := ReplyOutcome(reply);
        return;
      }
      retryCount := retryCount + 1;
      if retryCount < MAX_RETRIES {
        sleeps := sleeps + [5 * Pow2(retryCount - 1)];
      } else {
        r := Err(RATE_LIMIT_EXCEEDED);
        return;
      }
    }
    assert false;
  }

  /** Whatever the completions answer, at most three calls and two sleeps of 5 and 10 seconds. */
  lemma RetryBudget(llm: nat -> LlmReply)
    ensures var n := Settled(llm, LlmRateLimited, 0, MAX_RETRIES);
      && Backoff(5, Min(n, MAX_RETRIES - 1)) <= [5, 10]
      && Min(n + 1, MAX_RETRIES) <= 3
  {
    var n := Settled(llm, LlmRateLimited, 0, MAX_RETRIES);
    var b := Backoff(5, Min(n, MAX_RETRIES - 1));
    assert Pow2(1) == 2;
    assert forall i :: 0 <= i < |b| ==> b[i] == [5, 10][i];
  }

  /** The endpoint check: an https URL naming an Azure OpenAI host. */
  predicate EndpointFormatValid(endpoint: string)
  {
    StartsWith(endpoint, "https://") && Contains(endpoint, ".openai.azure.com")
  }

  const ENDPOINT_ISSUE := "Endpoint format invalid - should be https://[resource-name].openai.azure.com/"
  const ENDPOINT_ADVICE := "Check your Azure OpenAI resource endpoint URL"
  const SHORT_KEY_ISSUE := "API key appears too short"
  const SHORT_KEY_ADVICE := "Verify the API key is complete and valid"
  const KEY_CHARS_ISSUE := "API key contains unexpected characters"
  const KEY_CHARS_ADVICE := "Ensure API key is copied correctly without extra spaces"

  /** The part of the diagnostics computed from the endpoint and the API key. */
  datatype Diagnostics = Diagnostics(
    hasApiKey: bool,
    endpointFormatValid: bool,
    commonIssues: seq<string>,
    recommendations: seq<string>)

  predicate KeyTooShort(key: string) { |key| < 32 }

  predicate KeyHasUnexpectedChars(key: string) { !IsAlnum(RemoveChar(RemoveChar(key, '-'), '_')) }

  /** `list.append(x)` when `present`, the list unchanged otherwise. */
  function AppendIf(present: bool, s: seq<string>, x: string): (r: seq<string>)
    ensures r == if present then s + [x] else s
  {
    if present then s + [x] else s
  }

  /** `diagnose_authentication_error`, with the key read from the environment passed in. */
  function Diagnose(endpoint: string, apiKey: Option<string>): (d: Diagnostics)
    ensures d.hasApiKey == TruthyStr(apiKey)
    ensures d.endpointFormatValid == EndpointFormatValid(endpoint)
    ensures |d.commonIssues| == |d.recommendations|
    ensures ENDPOINT_ISSUE in d.commonIssues <==> !EndpointFormatValid(endpoint)
    ensures SHORT_KEY_ISSUE in d.commonIssues <==> TruthyStr(apiKey) && KeyTooShort(apiKey.value)
    ensures KEY_CHARS_ISSUE in d.commonIssues <==> TruthyStr(apiKey) && KeyHasUnexpectedChars(apiKey.value)
    ensures forall i :: 0 <= i < |d.commonIssues| ==>
      (d.commonIssues[i] == ENDPOINT_ISSUE <==> d.recommendations[i] == ENDPOINT_ADVICE)
  {
    var endpointValid := EndpointFormatValid(endpoint);
    var short := TruthyStr(apiKey) && KeyTooShort(apiKey.value);
    var chars := TruthyStr(apiKey) && KeyHasUnexpectedChars(apiKey.value);
    Diagnostics(TruthyStr(apiKey), endpointValid,
      AppendIf(chars, AppendIf(short, AppendIf(!endpointValid, [], ENDPOINT_ISSUE), SHORT_KEY_ISSUE), KEY_CHARS_ISSUE),
      AppendIf(chars, AppendIf(short, AppendIf(!endpointValid, [], ENDPOINT_ADVICE), SHORT_KEY_ADVICE), KEY_CHARS_ADVICE))
  }

  /** The recommendation `diagnose_authentication_error` gives for each of its issues. */
  function AdviceFor(issue: string): string
  {
    if issue == ENDPOINT_ISSUE then ENDPOINT_ADVICE
    else if issue == SHORT_KEY_ISSUE then SHORT_KEY_ADVICE
    else KEY_CHARS_ADVICE
  }

  /**
   * The issues come in the order of the checks, each at most once, and each
   * recommendation is the one for the issue at its position.
   */
  lemma DiagnosePairsAdvice(endpoint: string, apiKey: Option<string>)
    ensures var d := Diagnose(endpoint, apiKey); Distinct(d.commonIssues)
    ensures var d := Diagnose(endpoint, apiKey);
      forall i :: 0 <= i < |d.commonIssues| ==>
        d.commonIssues[i] == ENDPOINT_ISSUE || d.commonIssues[i] == SHORT_KEY_ISSUE || d.commonIssues[i] == KEY_CHARS_ISSUE
    ensures var d := Diagnose(endpoint, apiKey);
      ENDPOINT_ISSUE in d.commonIssues ==> d.commonIssues[0] == ENDPOINT_ISSUE
    ensures var d := Diagnose(endpoint, apiKey);
      KEY_CHARS_ISSUE in d.commonIssues ==> d.commonIssues[|d.commonIssues| - 1] == KEY_CHARS_ISSUE
    ensures var d := Diagnose(endpoint, apiKey);
      forall i :: 0 <= i < |d.commonIssues| ==> d.recommendations[i] == AdviceFor(d.commonIssues[i])
  {
    TextsDistinct();
    var b1, b2, b3 := !EndpointFormatValid(endpoint), TruthyStr(apiKey) && KeyTooShort(apiKey.value),
                      TruthyStr(apiKey) && KeyHasUnexpectedChars(apiKey.value);
    ChecksInOrder(b1, b2, b3, ENDPOINT_ISSUE, SHORT_KEY_ISSUE, KEY_CHARS_ISSUE);
    ChecksPaired(b1, b2, b3, ENDPOINT_ISSUE, SHORT_KEY_ISSUE, KEY_CHARS_ISSUE, ENDPOINT_ADVICE, SHORT_KEY_ADVICE, KEY_CHARS_ADVICE);
  }

  /**
   * Three checks that each append their own distinct issue: the issues keep
   * the order of the checks, none twice.
   */
  lemma ChecksInOrder(b1: bool, b2: bool, b3: bool, x1: string, x2: string, x3: string)
    requires x1 != x2 && x1 != x3 && x2 != x3
    ensures var s := AppendIf(b3, AppendIf(b2, AppendIf(b1, [], x1), x2), x3);
      && Distinct(s)
      && (forall i :: 0 <= i < |s| ==> s[i] == x1 || s[i] == x2 || s[i] == x3)
      && (x1 in s ==> s[0] == x1)
      && (x3 in s ==> s[|s| - 1] == x3)
  {
    var s := AppendIf(b3, AppendIf(b2, AppendIf(b1, [], x1), x2), x3);
    if b1 && b2 && b3 {
      assert s == [x1, x2, x3];
    } else if b1 && b2 {
      assert s == [x1, x2];
    } else if b1 && b3 {
      assert s == [x1, x3];
    } else if b2 && b3 {
      assert s == [x2, x3];
    } else if b1 {
      assert s == [x1];
    } else if b2 {
      assert s == [x2];
    } else if b3 {
      assert s == [x3];
    } else {
      assert s == [];
    }
  }

  /**
   * The same three checks, each appending its issue to one list and its advice
   * to another: the advice at each position belongs to the issue there.
   */
  lemma ChecksPaired(b1: bool, b2: bool, b3: bool, x1: string, x2: string, x3: string, a1: string, a2: string, a3: string)
    requires x1 != x2 && x1 != x3 && x2 != x3
    ensures var s := AppendIf(b3, AppendIf(b2, AppendIf(b1, [], x1), x2), x3);
      var t := AppendIf(b3, AppendIf(b2, AppendIf(b1, [], a1), a2), a3);
      |s| == |t| && forall i :: 0 <= i < |s| ==>
        (s[i] == x1 ==> t[i] == a1) && (s[i] == x2 ==> t[i] == a2) && (s[i] == x3 ==> t[i] == a3)
  {
    var s := AppendIf(b3, AppendIf(b2, AppendIf(b1, [], x1), x2), x3);
    var t := AppendIf(b3, AppendIf(b2, AppendIf(b1, [], a1), a2), a3);
    if b1 && b2 && b3 {
      assert s == [x1, x2, x3] && t == [a1, a2, a3];
    } else if b1 && b2 {
      assert s == [x1, x2] && t == [a1, a2];
    } else if b1 && b3 {
      assert s == [x1, x3] && t == [a1, a3];
    } else if b2 && b3 {
      assert s == [x2, x3] && t == [a2, a3];
    } else if b1 {
      assert s == [x1] && t == [a1];
    } else if b2 {
      assert s == [x2] && t == [a2];
    } else if b3 {
      assert s == [x3] && t == [a3];
    } else {
      assert s == [] && t == [];
    }
  }

  /** The three issues differ from one another. */
  lemma TextsDistinct()
    ensures ENDPOINT_ISSUE != SHORT_KEY_ISSUE && ENDPOINT_ISSUE != KEY_CHARS_ISSUE && SHORT_KEY_ISSUE != KEY_CHARS_ISSUE
  {
    assert |ENDPOINT_ISSUE| != |SHORT_KEY_ISSUE| && |ENDPOINT_ISSUE| != |KEY_CHARS_ISSUE| && |SHORT_KEY_ISSUE| != |KEY_CHARS_ISSUE|;
  }

  /** A key made only of dashes and underscores is flagged, whatever the endpoint: an empty remainder is not alphanumeric. */
  lemma SeparatorOnlyKeyFlagged(endpoint: string, key: string)
    requires key != ""
    requires forall i :: 0 <= i < |key| ==> key[i] == '-' || key[i] == '_'
    ensures KEY_CHARS_ISSUE in Diagnose(endpoint, Some(key)).commonIssues
  {
    DashesRemoved(key);
    UnderscoresRemoved(RemoveChar(key, '-'));
  }

  lemma {:induction false} DashesRemoved(s: string)
    requires forall i :: 0 <= i < |s| ==> s[i] == '-' || s[i] == '_'
    ensures forall i :: 0 <= i < |RemoveChar(s, '-')| ==> RemoveChar(s, '-')[i] == '_'
    decreases |s|
  {
    if |s| > 0 {
      DashesRemoved(s[1..]);
    }
  }

  lemma {:induction false} UnderscoresRemoved(s: string)
    requires forall i :: 0 <= i < |s| ==> s[i] == '_'
    ensures RemoveChar(s, '_') == ""
    decreases |s|
  {
    if |s| > 0 {
      UnderscoresRemoved(s[1..]);
    }
  }
}
