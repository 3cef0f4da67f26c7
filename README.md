# twooter bots — a Dafny model

twooter is a toolkit for bots that take part in a social-network
information-operations competition. A bot authenticates against the Twooter
API, then posts, replies, likes and reposts "twoots". This project models the
decision-making core of those bots in Dafny and proves what that core promises:

- the thin API client (`auth_api.py`, `twoots.py`): which requests it builds;
- the authentication manager: the token store, stored-token validation, and the
  login/registration fallback chain;
- the configuration manager: loading, validation, environment overrides and
  defaults;
- the Azure OpenAI client: prompts, retries, content cleaning and parsing;
- the post orchestrator: crawl → generate → publish, and its bookkeeping;
- the mention orchestrator, trending extractor and trending orchestrator;
- the two posting managers: the one with a database and the one for trends;
- the news/press crawler and the "Victor" scraper: link selection, filing and
  deduplication;
- the team bot and its social helper: feed selection, engagement plans and
  command dispatch. The `TwooterTeamBot` class of `_src/_bot/team_bot.py`
  repeats that of `_src/_bot/post/social_helper.py` line for line, except that it
  has no feed getters, no `create_post`, no feed monitor and a shorter interactive loop. The rows
  below cite `social_helper.py`, except for `team_bot.py`'s own loop.

The HTTP server, the SQLite files, the LLM and the web pages are outside the
model. Each of them is an input: a `Reply` value for every HTTP answer, a map for
every table, a function parameter for every LLM answer or page parse. Stateful
Python objects become Dafny classes whose fields the methods update. Each method
is proved against a specification function of the state before the call. Pure
helpers become functions and lemmas.

Files: `wrappers.dfy` (Option/Result), `text.dfy` (the string operations the
source relies on: strip, lower, split, join, find, int parsing), `json.dfy`
(JSON values), `http.dfy` (requests and replies), `attempts.dfy` (bounded retry
schedules), then one file per core source file.

## Model

| member | source | states |
|---|---|---|
| AuthApi.LoginRequest | src/twooter/apiclient/auth_api.py:9-10 | POST to /auth/login whose body holds exactly the username and the password |
| AuthApi.RegisterRequest | src/twooter/apiclient/auth_api.py:12-34 | POST to /auth/register. The bot key travels iff it is non-empty. The invite code travels iff there is no bot key and the code is non-empty. No other keys |
| AuthApi.RegisterTeamRequest | src/twooter/apiclient/auth_api.py:36-48 | POST to /auth/register-team with exactly username, display_name, password and team, each carrying the given value. The team object holds exactly its name, affiliation and first member (name and email) |
| AuthApi.ChangePasswordRequest | src/twooter/apiclient/auth_api.py:50-51 | POST to /auth/change-password carrying only the new password |
| AuthApi.LogoutRequest | src/twooter/apiclient/auth_api.py:53-54 | POST to /auth/logout with an empty body |
| TwootsApi.CreateRequest | src/twooter/apiclient/twoots.py:10-17 | POST /twoots/ with the content, and parent_id always (null when absent). embed is sent exactly when given, with its string; media exactly when given, as the list of its strings in order. No other keys |
| TwootsApi.Endpoint | src/twooter/apiclient/twoots.py:21-60 | each operation's verb and path: get is GET /twoots/<id>/, replies GET …/replies, like POST …/like, unlike DELETE …/like, repost POST …/repost, unrepost DELETE …/repost, delete DELETE /twoots/<id>/. DELETE is used exactly for unlike, unrepost and delete |
| TwootsApi.Checked | src/twooter/apiclient/twoots.py:17-19 | `raise_for_status` then `json()`: fails exactly on a network error or a 4xx/5xx status, otherwise returns the body |
| TwootsApi.LenientIsChecked | src/twooter/apiclient/twoots.py:36-41 | the early 2xx return of unlike/unrepost/delete behaves exactly like the checked path |
| TwootsApi.PairedEndpoints | src/twooter/apiclient/twoots.py:31-60 | like/unlike, repost/unrepost and get/delete address the same resource with different verbs |
| AuthManager.StoredTokenOf | _src/_bot/post/auth_manager.py:91-104 | a stored token exists exactly when the table has a row for the user |
| AuthManager.ValidateStep | _src/_bot/post/auth_manager.py:106-153 | No stored token: nothing changes. A valid token becomes the session token. A failed validation keeps the old session. A real token that fails is deleted from the table |
| AuthManager.LoginToken | _src/_bot/post/auth_manager.py:198-215 | "token" wins over "access_token", even when falsy. A non-empty string token is kept. A falsy or missing token, from either key, gives "session_based". Never empty |
| AuthManager.LoginStep | _src/_bot/post/auth_manager.py:166-226 | succeeds iff the reply is 200. Then it sets token and user and stores the row. On failure the state is unchanged |
| AuthManager.RegisterStep | _src/_bot/post/auth_manager.py:266-284 | Only 200/201 registers. The session token and the stored row hold the reply's "token" string, or "session_based" when the key is absent. A null token fails after the session was changed. Any other failure leaves the state unchanged |
| AuthManager.Eligible | _src/_bot/post/auth_manager.py:443-483 | the chain always starts with the stored-token check and then the password login |
| AuthManager.EligibleMethods | _src/_bot/post/auth_manager.py:443-483 | the chain is in rank order. It offers each registration exactly when its input (bot key, invite code, team info) was supplied |
| AuthManager.RunChain | _src/_bot/post/auth_manager.py:443-486 | tries a prefix of the methods in order and stops at the first success. It fails only after every method was tried |
| AuthManager.StoredTokenShortCircuits | _src/_bot/post/auth_manager.py:443-447 | a valid stored token ends the chain before any login, authenticated as that user |
| AuthManager.FallbackOrder | _src/_bot/post/auth_manager.py:410-486 | the tried methods start with the stored-token check and, when it fails, the login. They stay in rank order, and a registration is tried only when its input was supplied |
| AuthManager.FallbackOkAuthenticates | _src/_bot/post/auth_manager.py:410-486 | a successful authenticate_with_fallback leaves a session token for the requested user, so is_authenticated holds afterwards |
| AuthManager.ChainOkAuthenticates | _src/_bot/post/auth_manager.py:410-486 | every successful run of the chain leaves a session token and the requested user |
| AuthManager.AuthHeaders | _src/_bot/post/auth_manager.py:488-507 | refused iff no truthy token. It always sends the JSON content type, and sends a Bearer header iff the token is not "session_based" |
| AuthManager.ValidatedTokenIsBearer | _src/_bot/post/auth_manager.py:127-153 | a token that passed validation is sent as a Bearer credential |
| AuthManager.Payload | _src/_bot/post/auth_manager.py:185-382 | every method POSTs the given username and password. The login goes to /auth/login with exactly those two fields. Every registration also sends the email and display name. The bot key goes to /auth/register-bot with key and member_email, the invite to /auth/register with invite_code, the team creation to /auth/register-team with team_name |
| AuthManager.BotKeyPayloadFields | _src/_bot/post/auth_manager.py:310-317 | the bot registration sends exactly the four account fields, key and member_email |
| AuthManager.InvitePayloadFields | _src/_bot/post/auth_manager.py:252-258 | the invite registration sends exactly the four account fields and invite_code |
| AuthManager.TeamPayloadFields | _src/_bot/post/auth_manager.py:373-382 | the team creation sends exactly the four account fields and the four team fields, each with its given value |
| AuthManager.AuthenticationManager.constructor | _src/_bot/post/auth_manager.py:34-49 | the base URL loses its trailing slashes. The manager starts logged out over the persisted table |
| AuthManager.AuthenticationManager.StoreToken | _src/_bot/post/auth_manager.py:74-89 | INSERT OR REPLACE: the user's row becomes (token, info), and no other row changes |
| AuthManager.AuthenticationManager.GetStoredToken | _src/_bot/post/auth_manager.py:91-104 | returns the user's stored token, or None when there is no row |
| AuthManager.AuthenticationManager.RemoveStoredToken | _src/_bot/post/auth_manager.py:155-164 | deletes exactly the user's row |
| AuthManager.AuthenticationManager.ValidateStoredToken | _src/_bot/post/auth_manager.py:106-153 | result and new state are those of ValidateStep |
| AuthManager.AuthenticationManager.Login | _src/_bot/post/auth_manager.py:166-226 | result and new state are those of LoginStep |
| AuthManager.AuthenticationManager.Register | _src/_bot/post/auth_manager.py:251-284 | result and new state are those of RegisterStep, which the three registrations share, so the stored token is the reply's "token" string or "session_based" |
| AuthManager.AuthenticationManager.Try | _src/_bot/post/auth_manager.py:443-483 | one step of the chain, with the result and state of the specification's Attempt |
| AuthManager.AuthenticationManager.AuthenticateWithFallback | _src/_bot/post/auth_manager.py:410-486 | result, methods tried and final state equal the chain run over the eligible methods |
| AuthManager.AuthenticationManager.TryRegistrations | _src/_bot/post/auth_manager.py:456-483 | the registration tail of the chain behaves like RunChain over the registrations |
| AuthManager.AuthenticationManager.TryIfGiven | _src/_bot/post/auth_manager.py:456-483 | a registration guarded by its input is skipped exactly when the input is missing |
| AuthManager.AuthenticationManager.TryNext | _src/_bot/post/auth_manager.py:443-483 | trying the next method either finishes the chain or continues it from the new state |
| AuthManager.AuthenticationManager.GetAuthHeaders | _src/_bot/post/auth_manager.py:488-507 | returns AuthHeaders of the current token |
| AuthManager.AuthenticationManager.Logout | _src/_bot/post/auth_manager.py:509-530 | clears the session in every case, so the manager is no longer authenticated. It deletes the stored row only when both token and user were set |
| AuthManager.AuthenticationManager.IsAuthenticated | _src/_bot/post/auth_manager.py:532-539 | true iff get_auth_headers would succeed or the token is the empty string: any token counts, even one get_auth_headers rejects |
| AuthManager.ChainFailsAt | _src/_bot/post/auth_manager.py:443-483 | after a failed method the chain continues with the rest from the new state |
| AuthManager.ChainSucceedsAt | _src/_bot/post/auth_manager.py:443-483 | a successful method ends the chain with its own result |
| PostingManager.CanSendIffTruthy | _src/_bot/posting_manager.py:80-81 | an authenticated request can go out exactly when the session token is truthy (is_authenticated followed by get_auth_headers) |
| PostingManager.PostPayload | _src/_bot/posting_manager.py:84-102 | content is always sent, and parent_id always, even as null. embed is sent only when truthy, with its string; media only when truthy, as the list of its strings in order. No other keys |
| PostingManager.PostRequest | _src/_bot/posting_manager.py:84-110 | create_post POSTs that payload to /twoots/ |
| PostingManager.CreatePost | _src/_bot/posting_manager.py:80-126 | Not authenticated: refused. 200/201: the body. A network error or any other status: an error carrying it |
| PostingManager.CreatePostNarrowerThanClient | _src/_bot/posting_manager.py:111-115 | every post the façade accepts, the packaged client accepts with the same body |
| PostingManager.StrOrInt | _src/_bot/posting_manager.py:86-89 | a missing parent is sent as null and only then |
| PostingManager.PayloadsAgreeUnlessEmpty | _src/_bot/posting_manager.py:93-102 | façade and client send the same create body iff neither an empty embed nor an empty media list is given |
| PostingManager.ConflictBody | _src/_bot/posting_manager.py:231-233 | a 409 answer becomes {status, post_id} naming the action |
| PostingManager.ConflictBodyNamesAction | _src/_bot/posting_manager.py:227-378 | the four conflict bodies are pairwise distinct, and the post id reads back |
| PostingManager.ActionRequest | _src/_bot/posting_manager.py:199-378 | like and repost POST an empty body. unlike and unrepost DELETE |
| PostingManager.ActionRequestMatchesClient | _src/_bot/posting_manager.py:199-378 | the façade's verb and path for each action equal the packaged client's endpoint |
| PostingManager.ActionOutcome | _src/_bot/posting_manager.py:227-241 | Not authenticated: refused. 200: the body. 409: the action's conflict body. Anything else: an error (same for unlike 270-284, repost 317-331, unrepost 364-378) |
| PostingManager.ConflictAbsorbed | _src/_bot/posting_manager.py:231-233 | a 409 is success for the façade but an HTTP error for the packaged client |
| PostingManager.GetPostRequest | _src/_bot/posting_manager.py:128-145 | get_post sends a body-less GET to the post's own path |
| PostingManager.GetPost | _src/_bot/posting_manager.py:146-162 | 200: the body. 404: not found. Another status or a network error: the matching error |
| PostingManager.GetPostNarrowerThanClient | _src/_bot/posting_manager.py:146-149 | every post get_post returns, the packaged client returns too |
| PostingManager.ThreadContentShape | _src/_bot/posting_manager.py:404-407 | post 0 is sent unchanged. Post i>0 keeps its text and gains the " (i+1/n)" counter |
| PostingManager.NextParent | _src/_bot/posting_manager.py:413 | the next parent is data.id of the accepted post, when present |
| PostingManager.ContentsExtend | _src/_bot/posting_manager.py:403-410 | appending the next call keeps every call's content the thread's |
| PostingManager.ChainExtends | _src/_bot/posting_manager.py:410-413 | appending a call that answers the last accepted one keeps the reply chain |
| PostingManager.ThreadFromContents | _src/_bot/posting_manager.py:403-422 | the calls from post i on carry the thread's contents, never more calls than posts |
| PostingManager.ThreadFromChain | _src/_bot/posting_manager.py:401-413 | from post i on, each call replies to the previously accepted post |
| PostingManager.ThreadFromOutcome | _src/_bot/posting_manager.py:410-425 | a successful thread has one accepted result per post, in order |
| PostingManager.ThreadFromFailure | _src/_bot/posting_manager.py:418-422 | a failing thread re-raises the error of the last call it made |
| PostingManager.AcceptedExtend | _src/_bot/posting_manager.py:410-411 | appending an accepted call and its result keeps all calls accepted |
| PostingManager.ThreadCalls | _src/_bot/posting_manager.py:396-413 | An empty list raises with no call. Call k carries content k. The first call has no parent. Each later call answers the previous accepted post |
| PostingManager.ThreadOutcome | _src/_bot/posting_manager.py:410-425 | success returns exactly one accepted body per post, in input order. A failure raises the last call's error with no partial list |
| PostingManager.CreateThread | _src/_bot/posting_manager.py:379-425 | the loop's result and calls equal the thread specification |
| PostingManager.Successes | _src/_bot/posting_manager.py:446-449 | success count is bounded by the number of records |
| PostingManager.Failures | _src/_bot/posting_manager.py:450-453 | failure count is bounded by the number of records |
| PostingManager.SuccessesPlusFailures | _src/_bot/posting_manager.py:445-453 | every record is counted exactly once |
| PostingManager.BulkLikePosts | _src/_bot/posting_manager.py:427-463 | Empty input: zero counts, no total. Otherwise one record per id in input order, with success = records whose like succeeded, and success + failed = total = number of ids |
| TrendPostingManager.TrendingRequest | _src/_bot/trend_react/posting_manager.py:246-251 | get_trending_posts GETs /feeds/trending with only the limit parameter |
| TrendPostingManager.LatestRequest | _src/_bot/trend_react/posting_manager.py:300-307 | get_latest_posts GETs /feeds/latest. The at parameter is sent iff at_iso is truthy |
| TrendPostingManager.Listing | _src/_bot/trend_react/posting_manager.py:253-271 | a listing succeeds iff the status is 200 and the data field has a length, returning the body unchanged. Any other status or a network error raises |
| TrendPostingManager.FeedPosts | _src/_bot/trend_react/posting_manager.py:253-259 | a successful feed read returns the server body with feed_type overwritten by the feed's name, and every other key unchanged |
| TrendPostingManager.NormalizeHashtag | _src/_bot/trend_react/posting_manager.py:347-348 | the query always starts with "#". One is prefixed iff it was missing |
| TrendPostingManager.NormalizeHashtagIdempotent | _src/_bot/trend_react/posting_manager.py:347-348 | normalising twice changes nothing more |
| TrendPostingManager.NormalizeHashtagForgetsHash | _src/_bot/trend_react/posting_manager.py:347-348 | a tag with and without its "#" give the same search iff the tag did not already start with "#" |
| TrendPostingManager.HashtagRequest | _src/_bot/trend_react/posting_manager.py:347-357 | get_posts_by_hashtag GETs /search with the normalised tag as query and the limit |
| TrendPostingManager.CreatePostGuardsAndPayload | _src/_bot/trend_react/posting_manager.py:80-102 | the trend manager's create_post refuses without a token. Its payload always holds parent_id and holds embed/media only when truthy |
| TrendPostingManager.LikeOutcomes | _src/_bot/trend_react/posting_manager.py:156-170 | like_post succeeds exactly on 200 and 409, and 409 yields already_liked |
| TrendPostingManager.RepostOutcomes | _src/_bot/trend_react/posting_manager.py:203-217 | repost succeeds exactly on 200 and 409, and 409 yields already_reposted |
| ConfigManager.EnvOr | _src/_bot/post/config_manager.py:248-251 | os.getenv(name) or file value: a non-empty environment variable wins, otherwise the file's value |
| ConfigManager.ApiSettingsFrom | _src/_bot/post/config_manager.py:194-205 | Refused with the missing-base_url error iff base_url is missing or empty. Otherwise the URL is stored without trailing "/", and timeout, retry_attempts and retry_delay default to 30, 3 and 1.0 |
| ConfigManager.SlashOnlyBaseUrl | _src/_bot/post/config_manager.py:196-201 | a base_url of only slashes passes the check but loads as an empty URL, which validate_config then rejects |
| ConfigManager.DatabaseSettingsFrom | _src/_bot/post/config_manager.py:207-236 | fails iff a configured database name is not a string, as Path() raises on it (null included). Otherwise each name is the configured one or its ./<name>.db default |
| ConfigManager.DatabaseRoundTrip | _src/_bot/post/config_manager.py:207-221 | the database names save_config writes load back unchanged |
| ConfigManager.CredentialsFrom | _src/_bot/post/config_manager.py:243-265 | a bot_credentials member that is not an object raises iff some field falls through to it. Otherwise credentials load iff all four resolved fields are truthy, each taken from its environment variable when set |
| ConfigManager.FullEnvironmentSkipsSection | _src/_bot/post/config_manager.py:245-251 | with all four environment variables set, the credentials are theirs and the file's section is never read |
| ConfigManager.EnvironmentWins | _src/_bot/post/config_manager.py:248 | a set TWOOTER_USERNAME overrides the file's username |
| ConfigManager.TeamSettingsFrom | _src/_bot/post/config_manager.py:267-282 | invite code and bot key may come from the environment; team name, affiliation and member fields only from the file |
| ConfigManager.Validate | _src/_bot/post/config_manager.py:378-424 | API valid iff a non-empty base URL. Database iff present. Credentials iff all four fields are non-empty. Team iff an invite code, a bot key or all four new-team fields |
| ConfigManager.TeamInfoOf | _src/_bot/post/config_manager.py:476-499 | the new-team details are returned iff all four are truthy, and carry exactly those values |
| ConfigManager.LoadedSectionsValidate | _src/_bot/post/config_manager.py:378-424 | loaded credentials always validate. Team details good enough for registration make the team section valid |
| ConfigManager.TeamDict | _src/_bot/post/config_manager.py:318-322 | the saved team section holds exactly the keys whose value is not None, each with its value |
| ConfigManager.ApiDict | _src/_bot/post/config_manager.py:308-309 | asdict of the API settings: all four keys with their values |
| ConfigManager.DatabaseDict | _src/_bot/post/config_manager.py:311-313 | asdict of the database settings: the three file names |
| ConfigManager.CredentialsDict | _src/_bot/post/config_manager.py:315-316 | credentials are saved nested under bot_credentials |
| ConfigManager.CredentialFields | _src/_bot/post/config_manager.py:315-316 | the nested object carries the four credential strings |
| ConfigManager.SectionKeysDisjoint | _src/_bot/post/config_manager.py:306-322 | the saved sections never share a key, so no update overwrites another section |
| ConfigManager.ConfigDict | _src/_bot/post/config_manager.py:306-322 | the saved dictionary holds every present section's values at their keys. bot_credentials is there iff credentials exist. A team key is there iff its value is not None |
| ConfigManager.MergeLookup | _src/_bot/post/config_manager.py:306-322 | dict.update over disjoint key sets keeps every section's entries |
| ConfigManager.ApiRoundTrip | _src/_bot/post/config_manager.py:194-205 | saving then loading gives the API settings back, for a non-empty URL without a trailing "/" |
| ConfigManager.TeamRoundTrip | _src/_bot/post/config_manager.py:267-322 | saving then loading with no environment overrides gives the team settings back |
| ConfigManager.TeamOfDict | _src/_bot/post/config_manager.py:267-282 | any dictionary that agrees with the team's own on the team keys reads back as that team |
| ConfigManager.CredentialsRoundTrip | _src/_bot/post/config_manager.py:243-316 | saving then loading with no environment overrides gives fully set credentials back |
| ConfigManager.CredentialsOfSection | _src/_bot/post/config_manager.py:245-262 | a bot_credentials section equal to the saved one loads as those credentials |
| ConfigManager.ConfigurationManager.constructor | _src/_bot/post/config_manager.py:135-153 | without a configuration file: the default API URL and database names, the empty team, and no credentials |
| ConfigManager.ConfigurationManager.ValidateConfig | _src/_bot/post/config_manager.py:378-424 | validate_config reports Validate of the current sections |
| ConfigManager.ConfigurationManager.TeamInfoForRegistration | _src/_bot/post/config_manager.py:476-499 | returns TeamInfoOf of the current team settings |
| ConfigManager.ConfigurationManager.SaveDict | _src/_bot/post/config_manager.py:284-322 | the dictionary save_config writes is ConfigDict of the current sections |
| ConfigManager.ConfigurationManager.LoadApiSettings | _src/_bot/post/config_manager.py:194-205 | on success stores ApiSettingsFrom. On failure leaves the API settings unchanged. No other section changes |
| ConfigManager.ConfigurationManager.LoadDatabaseSettings | _src/_bot/post/config_manager.py:207-221 | stores DatabaseSettingsFrom. On a name that is not a string it fails and changes nothing |
| ConfigManager.ConfigurationManager.LoadBotCredentials | _src/_bot/post/config_manager.py:243-265 | stores complete credentials. Incomplete ones leave the previous credentials in place. A malformed section that is read fails and changes nothing |
| ConfigManager.ConfigurationManager.LoadTeamSettings | _src/_bot/post/config_manager.py:267-282 | stores TeamSettingsFrom and changes nothing else |
| ConfigManager.ConfigurationManager.LoadConfig | _src/_bot/post/config_manager.py:155-192 | loads API, database, credentials and team in order. It succeeds iff none of the first three raises. A failure is reported as "Error loading configuration: …" and keeps the sections loaded before it |
| ConfigManager.DefaultsValidation | _src/_bot/post/config_manager.py:135-153 | the defaults validate API and database but neither credentials nor team, and offer no team info |
| AzureOpenAiClient.ReplyOutcome | _src/_bot/post/azure_openai_client.py:163-174 | Empty output raises "No content generated", and that error is not retried. A raised error passes through. Otherwise the text is returned stripped: as it is when it has at most 255 characters, else its first 252 characters plus "...". The result is at most 255 characters and is its own strip |
| AzureOpenAiClient.GenerateSocialPost | _src/_bot/post/azure_openai_client.py:122-195 | The loop calls the completion until a reply is not rate-limited, at most 3 times. It sleeps 5·2^i between tries and returns that reply's outcome (ReplyOutcome: the stripped text, cut to 252 characters plus "..." when longer than 255), or the rate-limit error after the third rate-limited reply |
| AzureOpenAiClient.RetryBudget | _src/_bot/post/azure_openai_client.py:180-188 | whatever the completion answers: at most three calls, and sleeps that form a prefix of [5, 10] |
| AzureOpenAiClient.Diagnose | _src/_bot/post/azure_openai_client.py:204-230 | has_api_key iff the key is truthy; endpoint_format_valid iff https and an openai.azure.com host. It reports each issue exactly when its check fails, and the endpoint issue and its advice share a position |
| AzureOpenAiClient.DiagnosePairsAdvice | _src/_bot/post/azure_openai_client.py:214-230 | The issues follow the order of the checks: the endpoint first, the key characters last. None appears twice. The recommendation at each position is the one for the issue there |
| AzureOpenAiClient.ChecksInOrder | _src/_bot/post/azure_openai_client.py:214-230 | three checks that each append their own distinct issue give issues in check order, none twice |
| AzureOpenAiClient.ChecksPaired | _src/_bot/post/azure_openai_client.py:214-230 | when the same checks append their advice beside the issue, the advice at each position is the one for the issue there |
| AzureOpenAiClient.SeparatorOnlyKeyFlagged | _src/_bot/post/azure_openai_client.py:228-230 | for every endpoint, a non-empty key of only dashes and underscores is flagged, since an empty string is not alphanumeric |
| AzureOpenAiClient.DashesRemoved | _src/_bot/post/azure_openai_client.py:228 | removing "-" from a key of dashes and underscores leaves only underscores |
| AzureOpenAiClient.UnderscoresRemoved | _src/_bot/post/azure_openai_client.py:228 | removing "_" from a string of underscores leaves nothing |
| PostOrchestrator.OrElse | _src/_bot/post/post_orchestrator.py:377 | a present field wins, otherwise the default |
| PostOrchestrator.CapPrompt | _src/_bot/post/post_orchestrator.py:290-291 | a prompt over 2000 characters keeps its first 2000 and gains "...". A shorter one is unchanged |
| PostOrchestrator.SinglePrompt | _src/_bot/post/post_orchestrator.py:246-293 | the single-article prompt never exceeds 2003 characters |
| PostOrchestrator.MultiPrompt | _src/_bot/post/post_orchestrator.py:295-347 | the multi-article prompt never exceeds 2003 characters |
| PostOrchestrator.SinglePromptUsesFirstFivePosts | _src/_bot/post/post_orchestrator.py:271 | trending posts after the fifth never reach the single-article prompt |
| PostOrchestrator.SinglePromptUsesSummaryPrefix | _src/_bot/post/post_orchestrator.py:263 | only the first 300 characters of the summary reach the single-article prompt |
| PostOrchestrator.MultiPromptUsesFirstThreeArticles | _src/_bot/post/post_orchestrator.py:313-325 | articles after the third and trending posts after the fifth never reach the multi-article prompt |
| PostOrchestrator.FallbackContent | _src/_bot/post/post_orchestrator.py:213 | the stand-in post contains the title cut to 100 characters and fits in 255 characters |
| PostOrchestrator.Entry | _src/_bot/post/post_orchestrator.py:188-228 | entry i keeps the article's title. It succeeds iff generation returned non-empty text, which it then carries; otherwise it carries the fallback content and the error |
| PostOrchestrator.GenerateSocialContent | _src/_bot/post/post_orchestrator.py:154-244 | No articles: the single fallback entry. Otherwise one entry and one single-article prompt per article, in article order |
| PostOrchestrator.GeneratedExtend | _src/_bot/post/post_orchestrator.py:188-228 | appending the next article's prompt and entry keeps every entry generated from its own article |
| PostOrchestrator.GeneratedPostsFit | _src/_bot/post/post_orchestrator.py:198-228 | every entry fits in 255 characters when the generator keeps to that limit |
| PostOrchestrator.AttemptStep | _src/_bot/post/post_orchestrator.py:392-442 | A raised error is a failure. An empty response ends the loop with no record. A publication needs a non-empty response (success flag, then id, then data.id) |
| PostOrchestrator.SettledAttempt | _src/_bot/post/post_orchestrator.py:387-453 | the loop settles on an attempt no later than the third |
| PostOrchestrator.PostSleeps | _src/_bot/post/post_orchestrator.py:450-453 | one post's backoff sleeps are a prefix of [30, 60]. The 120 s in the comment never happens |
| PostOrchestrator.PostOne | _src/_bot/post/post_orchestrator.py:376-483 | one post's loop leaves the records, sleeps and number of calls of the specification |
| PostOrchestrator.PostRecordsCount | _src/_bot/post/post_orchestrator.py:436-483 | A post leaves at most two records, and two exactly when all three attempts were rate limited. It leaves none exactly when the loop stops on an empty or unrecognised response |
| PostOrchestrator.PublishedIffPosted | _src/_bot/post/post_orchestrator.py:393-435 | A post is published iff its settled attempt returned a recognised response. Every record carries the post's content, title and news id |
| PostOrchestrator.PostSocialContent | _src/_bot/post/post_orchestrator.py:349-515 | A bot that cannot start yields the single start-failure record. Otherwise it yields every post's records in order, with 15 s between posts |
| PostOrchestrator.CountPublished | _src/_bot/post/post_orchestrator.py:502 | the published count is bounded by the number of records |
| PostOrchestrator.CountPublishedAppend | _src/_bot/post/post_orchestrator.py:502 | counting published records distributes over concatenation |
| PostOrchestrator.PublishedAtMostOncePerPost | _src/_bot/post/post_orchestrator.py:374-483 | k posts give at most k published records and at most 2k records |
| PostOrchestrator.AllRecordsStep | _src/_bot/post/post_orchestrator.py:374-483 | one more post adds at most one published record and at most two records |
| PostOrchestrator.PostRecordsPublishOnce | _src/_bot/post/post_orchestrator.py:387-483 | one post leaves at most one published record |
| PostOrchestrator.PostsToPublish | _src/_bot/post/post_orchestrator.py:575-578 | posts are published from the front. No limit or a zero limit keeps all. A positive limit keeps min(limit, n). A negative one drops from the end, as Python's slice does |
| PostOrchestrator.RunCompleteWorkflow | _src/_bot/post/post_orchestrator.py:517-595 | The step flags are articles found, trending found, any generation succeeded and any post published. Overall success iff all four. Publication covers the limited prefix of the generated posts |
| PostOrchestrator.WorkflowSuccessNeedsPublication | _src/_bot/post/post_orchestrator.py:589-595 | overall success needs articles and at least one published post: the fallback entry alone never suffices |
| MentionOrchestrator.ReplyToPost | _src/_bot/reaction/mention_orchestrator.py:29-70 | the reply is posted iff the attempt the loop settles on returned data. The sleeps are 30·2^i, one per rate limit except after the last attempt |
| MentionOrchestrator.ReplySleepsBounded | _src/_bot/reaction/mention_orchestrator.py:56-65 | the sleeps form a prefix of [30, 60]: a third rate limit ends the loop without sleeping |
| MentionOrchestrator.OriginalTagsShape | _src/_bot/reaction/mention_orchestrator.py:129-134 | Each tag is "#" plus a non-empty name of the original post. Every non-empty name gives its tag, whether or not other names are empty. When no name is empty, every name gives one |
| MentionOrchestrator.OriginalTagsAppend | _src/_bot/reaction/mention_orchestrator.py:129-134 | the tags keep the order of the names: the tags of two runs of names are those of the first run, then those of the second |
| MentionOrchestrator.OriginalTagsOfOne | _src/_bot/reaction/mention_orchestrator.py:131-134 | a single name gives "#" + name when it is not empty, and no tag otherwise |
| MentionOrchestrator.ExtractTags | _src/_bot/reaction/mention_orchestrator.py:129-134 | the tag loop builds exactly OriginalTags |
| MentionOrchestrator.AddTag | _src/_bot/reaction/mention_orchestrator.py:156-161 | One step appends " " + tag when the tag is missing and the result fits in 255. Otherwise it changes nothing. It keeps the reply as prefix and never pushes a fitting reply past 255 |
| MentionOrchestrator.AppendTags | _src/_bot/reaction/mention_orchestrator.py:154-163 | the tag loop equals the specification WithTags |
| MentionOrchestrator.WithTagsProperties | _src/_bot/reaction/mention_orchestrator.py:154-163 | The reply is kept as prefix, and a fitting reply stays within 255. When all tags fit, every tag appears in the result |
| MentionOrchestrator.WithTagsBounds | _src/_bot/reaction/mention_orchestrator.py:154-163 | the tag loop keeps the reply as prefix, grows it by at most the tags and their spaces, and keeps a fitting reply within 255 |
| MentionOrchestrator.WithTagsKeepsAll | _src/_bot/reaction/mention_orchestrator.py:154-163 | when the reply and every tag with its space fit in 255, every tag is in the result |
| MentionOrchestrator.FinalReply | _src/_bot/reaction/mention_orchestrator.py:154-167 | the posted reply is at most 255 characters |
| MentionOrchestrator.FinalReplyKeepsReply | _src/_bot/reaction/mention_orchestrator.py:154-167 | A generated reply within the limit is never cut. The posted reply is exactly the tag loop over the original tags, so it starts with the reply. When every tag fits, every non-empty tag name appears as "#name" |
| MentionOrchestrator.MentionsToProcess | _src/_bot/reaction/mention_orchestrator.py:103 | the processed mentions are a prefix: all without a (truthy) limit, min(limit, n) for a positive one, Python's negative slice otherwise |
| TrendingOrchestrator.EngageWithPost | _src/_bot/trend_react/trending_orchestrator.py:29-74 | Like and repost are each true iff their call returned something truthy. Each raised call adds its own error, in call order. There is one 2 s pause between the calls |
| TrendingOrchestrator.ReplyToPost | _src/_bot/trend_react/trending_orchestrator.py:89-127 | The reply succeeds iff the settled attempt returned data, and its id is data.id; otherwise the id is None. Sleeps are 5·2^i, one per rate limit except after the last attempt |
| TrendingOrchestrator.ReplySleepsBounded | _src/_bot/trend_react/trending_orchestrator.py:113-122 | the sleeps form a prefix of [5, 10] |
| TrendingOrchestrator.PostsToProcess | _src/_bot/trend_react/trending_orchestrator.py:176 | the posts processed per hashtag are the first max_posts_per_hashtag of them |
| Text.FitPost | _src/_bot/trend_react/trending_orchestrator.py:213-214 | A reply over 255 characters keeps 252 and gains "...", so it is exactly 255. A shorter one is unchanged |
| Text.StripUnchanged | _src/_bot/post/azure_openai_client.py:174 | text that neither starts nor ends with whitespace is its own `strip()` |
| Text.StripStripped | _src/_bot/post/azure_openai_client.py:174 | `strip()` is idempotent, so the generated post is already stripped |
| TrendingExtractor.EmptyNameIrrelevant | _src/_bot/trend_react/trending_extractor.py:245-248 | no campaign keyword is empty, so a hashtag without a name is never relevant |
| TrendingExtractor.RelevantTags | _src/_bot/trend_react/trending_extractor.py:242-255 | the filter keeps no more hashtags than it was given |
| TrendingExtractor.RelevantTagsAppend | _src/_bot/trend_react/trending_extractor.py:244-251 | the filter keeps the input order (it distributes over concatenation) |
| TrendingExtractor.RelevantTagsMembers | _src/_bot/trend_react/trending_extractor.py:244-251 | a hashtag is kept iff its lower-cased name contains a campaign keyword |
| TrendingExtractor.RelevantNamesNonEmpty | _src/_bot/trend_react/trending_extractor.py:244-251 | every hashtag the campaign filter keeps has a name |
| TrendingExtractor.FilterCampaignRelevantHashtags | _src/_bot/trend_react/trending_extractor.py:223-255 | the filtering loop returns exactly RelevantTags over the campaign keywords |
| TrendingExtractor.GetTrendingHashtags | _src/_bot/trend_react/trending_extractor.py:113-148 | refused without a session, otherwise the server's hashtags or its error |
| TrendingExtractor.PostsFor | _src/_bot/trend_react/trending_extractor.py:171-179 | The search's `data` is returned unchanged whenever `len` accepts it (a list, a string or an object). It is an empty list when `data` is missing, when `len` raises on it, or when the search raised |
| TrendingExtractor.GetPostsByHashtag | _src/_bot/trend_react/trending_extractor.py:164-179 | Refused without a posting manager. Otherwise PostsFor of the #-prefixed search |
| TrendingExtractor.RecordedMap | _src/_bot/trend_react/trending_extractor.py:203-215 | The dictionary holds a name iff it is non-empty, belongs to some trending hashtag and has posts. It then holds exactly those posts |
| TrendingExtractor.DistinctNamesKeepEveryPair | _src/_bot/trend_react/trending_extractor.py:211-212 | with distinct names, nothing recorded is overwritten |
| TrendingExtractor.DuplicateHashtagCountedTwice | _src/_bot/trend_react/trending_extractor.py:295-301 | a hashtag listed twice is stored once but its posts are counted twice in total_posts |
| TrendingExtractor.GetTrendingPostsWithHashtags | _src/_bot/trend_react/trending_extractor.py:181-221 | Without a session, hashtags or posting manager: the empty dictionary. Otherwise the dictionary of named hashtags with posts |
| TrendingExtractor.CollectHashtagPosts | _src/_bot/trend_react/trending_extractor.py:292-301 | with a posting manager the loop yields the dictionary and the running total of recorded posts. Without one, the first search raises |
| TrendingExtractor.RecordedStep | _src/_bot/trend_react/trending_extractor.py:297-301 | one more hashtag is recorded and counted exactly when it has posts |
| TrendingExtractor.GetCampaignTrendingContent | _src/_bot/trend_react/trending_extractor.py:257-321 | The relevant hashtags, their posts and the total. The empty structure when nothing is relevant or on any error |
| NewsPressCrawler.SectionLinksRedundant | _src/_bot/post/news_press_crawler.py:135-156 | the section strategy never finds a link the indicator strategy misses, since both use the same URL test |
| NewsPressCrawler.CollectLinks | _src/_bot/post/news_press_crawler.py:126-169 | the three strategies together collect exactly the links each of them accepts |
| NewsPressCrawler.Insert | _src/_bot/post/news_press_crawler.py:171-173 | inserting into a strictly sorted list keeps it strictly sorted and adds exactly the new element |
| NewsPressCrawler.SortedLinks | _src/_bot/post/news_press_crawler.py:171-173 | the link set becomes a strictly increasing list with the same members, so there are no duplicates |
| NewsPressCrawler.GeneratedSummary | _src/_bot/post/news_press_crawler.py:416-432 | the generated summary is at most 403 characters. A content of at most 100 characters is its own summary |
| NewsPressCrawler.SummaryQuotesContent | _src/_bot/post/news_press_crawler.py:416-432 | Apart from a closing "." or "..." the summary is a prefix of the content. A sentence-based summary ends with a period |
| NewsPressCrawler.ShortContentIsItsOwnSummary | _src/_bot/post/news_press_crawler.py:417-430 | content of two or three sentences, 101 to 399 characters long, is its own summary, with a period added when it lacks one |
| NewsPressCrawler.Crawler.constructor | _src/_bot/post/news_press_crawler.py:37-49 | a new crawler has processed no URL |
| NewsPressCrawler.Crawler.FindNewsPressLinks | _src/_bot/post/news_press_crawler.py:116-178 | the links found are sorted, duplicate-free and exactly those the three strategies accept. The pattern strategy skips processed URLs |
| NewsPressCrawler.Crawler.ExtractArticleDetails | _src/_bot/post/news_press_crawler.py:253-296 | The URL is marked processed before fetching, so it is never fetched twice. An article is returned iff the URL was new, the page loaded and it has a title and at least 100 characters of content |
| NewsPressCrawler.Crawler.ExtractEach | _src/_bot/post/news_press_crawler.py:84-100 | every URL is marked processed, and the accepted articles are kept in URL order |
| NewsPressCrawler.Crawler.CrawlNewsAndPress | _src/_bot/post/news_press_crawler.py:51-114 | An index that fails to load yields no articles and the error. Otherwise every found link is processed once. The articles kept are the Accepted pages of those links, in sorted URL order. total_articles equals the number kept, and no more are kept than links found |
| NewsPressCrawler.SortedUnique | _src/_bot/post/news_press_crawler.py:171-173 | two strictly sorted lists with the same members are equal, so the crawl's article order is determined by the links alone |
| NewsPressCrawler.SortedDistinct | _src/_bot/post/news_press_crawler.py:171-173 | a strictly sorted list has no duplicates |
| NewsPressCrawler.AcceptedLength | _src/_bot/post/news_press_crawler.py:84-93 | no more articles than URLs are kept |
| VictorScraper.UpTo | _src/_bot/scraping/victor_scraper_simple.py:530-532 | the prefix of a URL before its first stop character, which is not contained in it |
| VictorScraper.AfterLastSlash | _src/_bot/scraping/victor_scraper_simple.py:530-532 | the position just after the last slash, with no slash beyond it |
| VictorScraper.UrlPath | _src/_bot/scraping/victor_scraper_simple.py:530-532 | the path of a site URL is no longer than what follows the site's base |
| VictorScraper.PathBelowRoot | _src/_bot/scraping/victor_scraper_simple.py:530-532 | the path of a page right below the site root is that page with its leading slash |
| VictorScraper.RootIsNotArticle | _src/_bot/scraping/victor_scraper_simple.py:514-539 | the site root is never taken for an article |
| VictorScraper.MainPageIsNotArticle | _src/_bot/scraping/victor_scraper_simple.py:533-536 | /index.html, /policies.html and / are never taken for articles, whatever the skip list says |
| VictorScraper.PageBelowRootIsArticle | _src/_bot/scraping/victor_scraper_simple.py:514-539 | a page below the root that has no skipped fragment and is not a main page is an article |
| VictorScraper.IndicatorAnywhereMarksPressRelease | _src/_bot/scraping/victor_scraper_simple.py:541-554 | a press-release phrase in the title, the content or the summary makes the article a press release |
| VictorScraper.ExtractTags | _src/_bot/scraping/victor_scraper_simple.py:427-439 | the tags are the non-empty tag texts under 50 characters, each listed once |
| VictorScraper.ListOf | _src/_bot/scraping/victor_scraper_simple.py:279-292 | listing a set gives each of its elements exactly once |
| VictorScraper.PagesFound | _src/_bot/scraping/victor_scraper_simple.py:147-175 | at most eight paginated pages, page2 to page9, are found |
| VictorScraper.PagesFoundContiguous | _src/_bot/scraping/victor_scraper_simple.py:157-173 | The pages found are page2, page3, ... in order, and each answered 200. The first page after the run that was checked did not answer 200 |
| VictorScraper.DiscoverPaginatedUrls | _src/_bot/scraping/victor_scraper_simple.py:147-175 | the loop returns exactly the contiguous run of pages that answered 200, stopping at the first other answer or error |
| VictorScraper.PolicySectionsShape | _src/_bot/scraping/victor_scraper_simple.py:461-512 | Every policy kept has more than 100 characters of content. Classed sections carry their word count. With the heading fallback, every policy but the last keeps a word count of 0 |
| VictorScraper.ClassedSections | _src/_bot/scraping/victor_scraper_simple.py:470-486 | the loop over classed sections keeps those with a heading and more than 100 characters of text, in order |
| VictorScraper.GroupByHeadings | _src/_bot/scraping/victor_scraper_simple.py:488-510 | the fallback loop groups text under its heading and keeps the groups longer than 100 characters |
| VictorScraper.ExtractPolicySections | _src/_bot/scraping/victor_scraper_simple.py:461-512 | the heading fallback is used exactly when no classed section qualifies |
| VictorScraper.Scraper.constructor | _src/_bot/scraping/victor_scraper_simple.py:33-58 | a new scraper has no scraped URLs, no pages, articles, policies or errors, and zero counters |
| VictorScraper.Scraper.ScrapeArticle | _src/_bot/scraping/victor_scraper_simple.py:216-254 | A URL is scraped at most once, and it is marked scraped before the fetch. A failed fetch raises an error that names the URL. A fetched page gives an article built from it |
| VictorScraper.Scraper.ScrapeMainPages | _src/_bot/scraping/victor_scraper_simple.py:85-101 | the pages that load are appended in order, the errors of the others logged in order, and the article links are those of the loaded pages |
| VictorScraper.Scraper.ScrapeStep | _src/_bot/scraping/victor_scraper_simple.py:107-126 | one link is scraped once. Its article goes to the press releases iff it is one and to the news otherwise, or its error is logged |
| VictorScraper.Scraper.ScrapeLinks | _src/_bot/scraping/victor_scraper_simple.py:107-126 | every link is marked scraped, the errors are logged in link order, and one article is filed per link that loads. Every filed article carries the title, content, summary and word count its page gave, and its tags are the page's tag texts that are non-empty and under 50 characters, each once |
| VictorScraper.Scraper.ScrapeLinkAt | _src/_bot/scraping/victor_scraper_simple.py:107-126 | one iteration of the article loop keeps the loop's invariant |
| VictorScraper.Scraper.ScrapeArticles | _src/_bot/scraping/victor_scraper_simple.py:105-126 | The articles found are appended to the news and the press releases. They are never more than the distinct links, and each comes from a link not scraped before. Every filed article carries the title, content, summary and word count its page gave, and its tags are the page's tag texts that are non-empty and under 50 characters, each once |
| VictorScraper.Scraper.ExtractPolicies | _src/_bot/scraping/victor_scraper_simple.py:256-277 | a loaded policies page replaces the policy list, and a failure appends its error and leaves the policies alone |
| VictorScraper.Scraper.ScrapePagesAndArticles | _src/_bot/scraping/victor_scraper_simple.py:83-126 | The loaded main pages are appended. Every article link found on them is marked scraped, each visited once in some order of the set. Each article is filed as news or press release. The number filed is exactly the number of those links not scraped before whose page loads. The errors are the main-page errors, then one per failed article in visiting order. Every filed article carries the title, content, summary and word count its page gave, and its tags are the page's tag texts that are non-empty and under 50 characters, each once |
| VictorScraper.Scraper.ScrapeSite | _src/_bot/scraping/victor_scraper_simple.py:83-134 | Steps 1 and 2 as in ScrapePagesAndArticles, then the policies. They are replaced on success. On failure they are unchanged and the policies error is logged last. The counters equal the number of main pages and the number of news plus press releases. The filed articles carry their pages' texts and filtered tags as in ScrapePagesAndArticles |
| VictorScraper.Scraper.ScrapeAll | _src/_bot/scraping/victor_scraper_simple.py:60-145 | ScrapeSite over the index and policies pages and the paginated pages found, with the site's own URL rules and press indicators. The filed articles carry their pages' texts and filtered tags |
| VictorScraper.ScrapableIsLoadable | _src/_bot/scraping/victor_scraper_simple.py:104-126 | the number of articles step 2 files does not depend on the visiting order: it is the number of distinct links not scraped before whose page loads |
| VictorScraper.LinksScrapedStep | _src/_bot/scraping/victor_scraper_simple.py:107-126 | scraping link i as the loop body does extends the loop invariant from i links to i + 1 |
| VictorScraper.MainPagesStep | _src/_bot/scraping/victor_scraper_simple.py:85-101 | one more main page adds its data when it loads and its error when it does not |
| VictorScraper.LinksStep | _src/_bot/scraping/victor_scraper_simple.py:107-126 | one more distinct link adds its error and its article exactly once |
| VictorScraper.FiledStep | _src/_bot/scraping/victor_scraper_simple.py:111-118 | filing one more article scraped from its page (texts, word count and filtered tags) keeps the filing sound |
| VictorScraper.FiledCount | _src/_bot/scraping/victor_scraper_simple.py:105-126 | the articles filed number no more than the links they came from |
| TeamBot.CheckSetup | _src/_bot/post/social_helper.py:71-94 | the setup is ready iff the API, credential and team sections all validate. Otherwise the first failing section, in that order, is reported |
| TeamBot.DefaultSetupLacksCredentials | _src/_bot/post/social_helper.py:71-94 | a configuration with only the defaults is reported as lacking bot credentials |
| TeamBot.StartCredentials | _src/_bot/post/social_helper.py:110-119 | start passes the configured username, password, email, display name, invite code, bot key and registration team info to the fallback authentication |
| TeamBot.Caught | _src/_bot/post/social_helper.py:160-170 | a façade call answers the posting manager's result when it succeeds and None when it raised |
| TeamBot.Wrapped | _src/_bot/post/social_helper.py:344-356 | create_post answers {"success": true, "data": ...} exactly when the result has a data object with a truthy id, and None otherwise |
| TeamBot.WrappedIffTruthyId | _src/_bot/post/social_helper.py:348 | the wrapping accepts exactly the results whose data.id lookup succeeds with a truthy value |
| TeamBot.PostIds | _src/_bot/post/social_helper.py:413-417 | the ids of a feed are post.get('id') of each post, in order |
| TeamBot.NewIdsMeaning | _src/_bot/post/social_helper.py:414-420 | A check reports each truthy id that was not seen before, once. It reports no other id |
| TeamBot.NewIdsAppend | _src/_bot/post/social_helper.py:391-420 | checking two id lists one after the other reports what a single check of both reports |
| TeamBot.MonitoredIsOneCheck | _src/_bot/post/social_helper.py:388-420 | All reports of a monitoring run equal one check over every id fetched. seen_posts holds exactly what was reported |
| TeamBot.ReportedOnce | _src/_bot/post/social_helper.py:388-420 | across a whole monitoring run every truthy id fetched is reported exactly once |
| TeamBot.CheckFeed | _src/_bot/post/social_helper.py:413-420 | the inner loop reports the new ids of one feed and adds them to seen_posts |
| TeamBot.MonitorRound | _src/_bot/post/social_helper.py:392-446 | one round checks every named feed in turn, skipping unknown feed types and empty answers, and keeps the run's invariant |
| TeamBot.PostActions | _src/_bot/post/social_helper.py:511-527 | one post never receives more actions than the hour's remaining budget |
| TeamBot.PostActionsTargets | _src/_bot/post/social_helper.py:505-527 | every action of the loop over one post is on that post, for the keyword searched |
| TeamBot.PostActionsAreKnownPrefix | _src/_bot/post/social_helper.py:511-527 | A post receives the known actions of the list in list order, as many as the budget allows. Unknown action names are skipped without counting |
| TeamBot.PostsActions | _src/_bot/post/social_helper.py:505-527 | a search's loop never exceeds the budget |
| TeamBot.PostsActionsTargets | _src/_bot/post/social_helper.py:505-510 | each action of a search's loop is on a truthy id of one of the posts found, for that keyword |
| TeamBot.KeywordActions | _src/_bot/post/social_helper.py:500-530 | a keyword acts on at most the first two posts of its search, and a failed search acts on nothing |
| TeamBot.RoundActions | _src/_bot/post/social_helper.py:500-530 | the actions of a round, over all keywords, never exceed the hour's remaining budget |
| TeamBot.TwoPostsPerKeyword | _src/_bot/post/social_helper.py:505 | every action taken for a keyword targets one of the first two posts its search returned |
| TeamBot.RoundAt | _src/_bot/post/social_helper.py:486-533 | The count resets when an hour has passed since the last reset. A round with the budget spent does nothing. Otherwise the count grows by the actions taken, up to the maximum |
| TeamBot.Rounds | _src/_bot/post/social_helper.py:484-533 | a run of n rounds logs n rounds |
| TeamBot.RoundsCounted | _src/_bot/post/social_helper.py:473-533 | every run keeps the counting rule from round to round |
| TeamBot.WindowStart | _src/_bot/post/social_helper.py:488-490 | the round where the current hourly window began comes at or before the given round |
| TeamBot.WindowWithinBudget | _src/_bot/post/social_helper.py:486-524 | The actions since the window's last reset add up to the current count. That count never exceeds max_actions_per_hour |
| TeamBot.RateLimitHolds | _src/_bot/post/social_helper.py:452-539 | in every run and at every round, the calls made since the last hourly reset are at most max_actions_per_hour |
| TeamBot.CountedLogSnoc | _src/_bot/post/social_helper.py:486-533 | a round that follows the counting rule extends a counted log |
| TeamBot.ActOnPost | _src/_bot/post/social_helper.py:511-527 | the loop over one post's actions performs exactly the planned actions and counts each one |
| TeamBot.ActOnKeyword | _src/_bot/post/social_helper.py:500-530 | the loop over a keyword's first two posts performs exactly the planned actions and counts each one |
| TeamBot.EngageRound | _src/_bot/post/social_helper.py:500-530 | the loop over the keywords performs exactly the round's planned actions and counts them all |
| TeamBot.NextRound | _src/_bot/post/social_helper.py:484-533 | the body of the engagement loop produces exactly the round the specification describes |
| TeamBot.SplitOnce | _src/_bot/post/social_helper.py:579 | split(' ', 1) returns the text before the first space and the rest, or the whole string when there is no space |
| TeamBot.ParseReply | _src/_bot/post/social_helper.py:578-589 | The reply command needs an integer id, a space and the content. Without a space it reports the usage. A bad id reports an invalid post id |
| TeamBot.Dispatch | _src/_bot/post/social_helper.py:553-675 | the reply branch is reached only by lines starting with "reply ", a feed command only by a line starting with that feed's name, and monitor only with some feed listed |
| TeamBot.FeedsAndRest | _src/_bot/post/social_helper.py:590-672 | the feed commands name a known feed that the line starts with, and a monitor command lists at least one feed |
| TeamBot.FeedLimit | _src/_bot/post/social_helper.py:591-597 | the feed limit is the second word when int() accepts it, and 10 otherwise |
| TeamBot.StripEach | _src/_bot/post/social_helper.py:660 | each comma-separated feed type is stripped |
| TeamBot.FeedRoundTrip | _src/_bot/post/social_helper.py:590-656 | typing a feed's name and a number asks for that feed with exactly that limit |
| TeamBot.DispatchFeed | _src/_bot/post/social_helper.py:555-590 | a line starting with a feed's name reaches that feed's branch |
| TeamBot.FeedTests | _src/_bot/post/social_helper.py:557-590 | a line starting with a feed's name passes none of the earlier tests and only its own feed test |
| TeamBot.DispatchReply | _src/_bot/post/social_helper.py:557-579 | a line beginning with "reply " reaches the reply branch |
| TeamBot.ReplyIsNoEarlierCommand | _src/_bot/post/social_helper.py:557-577 | a line beginning with "reply " passes none of the earlier tests |
| TeamBot.ReplyContentShape | _src/_bot/post/social_helper.py:555-583 | the content of a parsed reply is non-empty and lower-case, since the line was stripped and lower-cased first |
| TeamBot.ReplyContentAt | _src/_bot/post/social_helper.py:555-583 | the content of a parsed reply is the stripped, lower-cased line after a space past "reply" |
| TeamBot.ReplyArgsSplit | _src/_bot/post/social_helper.py:579-583 | the content of a parsed reply is what follows the first space of its arguments |
| TeamBot.ReplyRoundTrip | _src/_bot/post/social_helper.py:555-585 | typing "reply <id> <content>", for a lower-case content not ending in whitespace, replies to that post with exactly that content |
| TeamBot.TwooterTeamBot.constructor | _src/_bot/post/social_helper.py:52-69 | a new bot holds its configuration and has no managers, and it is neither running nor in auto mode |
| TeamBot.TwooterTeamBot.Start | _src/_bot/post/social_helper.py:96-134 | Start succeeds iff the configuration has API and database settings, credentials and team settings, and the fallback authentication succeeds. On success the bot is running, holds the authenticated state, and posts through the authentication manager it built. On failure running and the posting manager stay as they were |
| TeamBot.TwooterTeamBot.Stop | _src/_bot/post/social_helper.py:136-146 | both flags go down, and the managers and stored tokens are kept |
| TeamBot.TwooterTeamBot.Post | _src/_bot/post/social_helper.py:148-170 | before start the answer is None. After start it is the posting manager's result, or None when that raised |
| TeamBot.TwooterTeamBot.LikePost | _src/_bot/post/social_helper.py:172-190 | before start the answer is None. After start it is the posting manager's like result, or None when that raised |
| TeamBot.TwooterTeamBot.Repost | _src/_bot/post/social_helper.py:192-210 | before start the answer is None. After start it is the posting manager's repost result, or None when that raised |
| TeamBot.TwooterTeamBot.CreateThread | _src/_bot/post/social_helper.py:212-231 | before start the answer is None. After start it is the posting manager's thread, or None when that raised |
| TeamBot.TwooterTeamBot.CreatePost | _src/_bot/post/social_helper.py:329-359 | The answer is the wrapped post exactly when the bot has started, the posting manager succeeded and its result has a data object with a truthy id. Otherwise it is None |
| TeamBot.TwooterTeamBot.MonitorFeeds | _src/_bot/post/social_helper.py:361-450 | Before start, or when not running, nothing is reported. Otherwise the reports are those of the monitoring specification over the named feeds, trending and latest by default |
| TeamBot.TwooterTeamBot.AutoEngage | _src/_bot/post/social_helper.py:452-539 | Before start nothing happens. Otherwise the log is the engagement specification's rounds, liking by default, and auto_mode is down when the run ends |
| TeamBot.FirstCommands | _src/_bot/team_bot.py:338-369 | the tests both interactive loops share, up to reply, never yield a feed or monitor command |
| TeamBot.TeamBotDispatch | _src/_bot/team_bot.py:336-373 | the older loop's commands never include a feed or monitor command |
| TeamBot.TeamBotDispatchAgrees | _src/_bot/team_bot.py:336-373 | The two interactive loops read every line the same way, except the feed and monitor commands. The older loop reports those as unknown |
| Text.WordsOfTwo | _src/_bot/post/social_helper.py:591-594 | split() of two words joined by one space gives back the two words |
| Attempts.Backoff | _src/_bot/reaction/mention_orchestrator.py:56-61 | the i-th retry waits base times 2 to the power i, for exactly the number of retries made |
| Attempts.Settled | _src/_bot/post/azure_openai_client.py:176-192 | Retries stop at the first attempt that is not rate-limited, or at the retry limit. Every earlier attempt was rate-limited |
| Text.JoinSplit | _src/_bot/post/news_press_crawler.py:418 | joining the pieces of split(sep) with sep gives back the original text, so the sentence summary quotes the content |
| Text.LessIrreflexive | _src/_bot/post/news_press_crawler.py:171-173 | Python's string order never puts a string before itself |
| Text.LessTransitive | _src/_bot/post/news_press_crawler.py:171-173 | Python's string order is transitive |
| Text.LessTotal | _src/_bot/post/news_press_crawler.py:171-173 | of two different strings one comes first, so sorting yields a strict order |
| Text.ParseIntOfIntToString | _src/_bot/post/social_helper.py:582 | int(str(n)) == n, so a typed post id is read back exactly |
| Text.ContainsAnyMeans | _src/_bot/scraping/victor_scraper_simple.py:525-528 | a skip pattern matches iff some pattern of the list occurs in the URL |

## Left out

- HTTP transport, sessions and retries inside `requests`: each server answer is an input `Reply`, so connection errors are one more kind of answer.
- The SQLite files (`tokens.db`, `posts.db`, `trend_posts.db`): each table is a `map` field. `_init_token_db` (auth_manager.py:51) and the `__init__` methods only create empty tables or set fields.
- Sleeps and clocks: no sleep is waited, and timestamps and the clock are inputs. The retry waits are recorded in sequences:
  - the LLM retries (azure_openai_client.py:185);
  - the per-post backoff and the 15 s between posts of post_orchestrator.py;
  - the mention and trending reply backoffs;
  - the 2 s pause of the trending engagement.
- The random 1–5 s jitter that mention_orchestrator.py:59 and trending_orchestrator.py:116 add to each backoff: the model records the backoff without it.
- Sleeps that are not recorded, because none of them changes what is sent:
  - the crawler's 0.5 s per article (news_press_crawler.py:96);
  - the scraper's 1 s, 0.5 s and 0.3 s pauses (victor_scraper_simple.py:97, 121, 169, 596);
  - `create_thread`'s `delay_seconds` (posting_manager.py:418);
  - the pauses of `monitor_feeds` and `auto_engage` (social_helper.py:443-534, team_bot.py:277-315);
  - the 15 s between mentions (mention_orchestrator.py:185);
  - the delays between posts and hashtags and between rounds of trending_orchestrator.py (193-245, 298);
  - the delays of the workflow loop in post_orchestrator.py (790-799).
- The LLM: every completion is an oracle parameter. Building the Azure client (`_initialize_client`, `_initialize_components`) and `test_connection` are left out; they only construct objects or call the service.
- The HTML parsing: BeautifulSoup and its heuristics are a page-parse oracle. This covers `_extract_title`, `_extract_content`, `_extract_description`, `_extract_article_previews`, `_extract_article_content`, `_extract_date`, `_extract_author`, `_extract_images` and `_clean_content`. For the same reason the scraper's `_scrape_main_page` is an oracle that returns the page's links.
- `urljoin`: links reach the model already absolute.
- Set iteration order: where Python iterates over a `set`, the model fixes no order.
- Printing, logging text and the `_print_help`, `_print_status` and `print_config_status` displays.
- `check_database_health`, `show_database_stats` and `cleanup_databases` in social_helper.py and team_bot.py: these are database maintenance reports. `cleanup_databases` queries a `created_at` column that the schemas do not have.
- The feed getters of social_helper.py:233-327 (`get_trending_posts`, `get_latest_posts`, `get_home_feed`, `get_explore_feed`): each is one GET whose result is only displayed. The model keeps which feed is asked for and its limit, not the display.
- `get_post_replies`, `search_posts` and `get_user_posts` of posting_manager.py: these are read-only GETs. The search that `auto_engage` runs is an oracle.
- `_load_config` and `login` of trending_extractor.py: they read a file and call the API client's login, which the authentication model already covers.
- The text of the replies that `auto_engage` writes: it is an input.
- Python's `int()` on underscores and non-ASCII digits: the model accepts ASCII signs and digits only, surrounded by whitespace.
- Text.Lower, Text.IsAlnum: case folding, letters and digits are the ASCII ones. Python's `lower()` also folds non-ASCII capitals, and its `isalnum()` also accepts non-ASCII letters and digits. Whitespace (Text.IsSpace, used by `strip()` and `split()`) is Python's full Unicode set.
- AzureOpenAiClient.Diagnose: uses the ASCII Text.IsAlnum, so a key with a non-ASCII letter such as "é" is flagged for unexpected characters, where Python's `isalnum()` accepts it.
- `KeyboardInterrupt`, the signal handlers and the endless monitoring loops: each loop runs for a given number of rounds. `run_continuous_trending_monitoring` and the outer round counters and summary of `process_trending_content` are left out.
- `get_current_user` (auth_manager.py:541-548): a plain field read.
- The file I/O of `load_config`: the parsed JSON and the environment are inputs. `_resolve_config_path`, `_resolve_db_path` and `create_template_config` only compute or write file paths.
- `save_data` and `get_latest_content` of the crawler and the scraper: they only write or re-read JSON files.
- `get_news_and_press_data`, `get_trending_social_data` and `test_all_components` of post_orchestrator.py:
  - the first forwards to the crawler, whose model is given (NewsPressCrawler.Crawler.CrawlNewsAndPress);
  - the second starts the social bot when it is not running (TeamBot.TwooterTeamBot.Start) and reads the trending feed through `get_trending_posts`, one of the feed getters left out above (post_orchestrator.py:125-130); it does not call trending_extractor.py;
  - the last only probes the components.
- The argparse `main` functions and the runner scripts.
- The two other Azure clients (`reaction/`, `trend_react/`) and `victor_posts_extractor.py`: callers and look-alikes of the modelled client, not part of this model.
- ConfigManager.StrAt: a credential or team value of the file that is not a string reads as absent. Python keeps such a value as it is, and a truthy number would count as a configured credential. This reaches ConfigManager.CredentialsFrom and ConfigManager.TeamSettingsFrom. Database names that are not strings are modelled: they fail the load, as in Python.
- AuthManager.LoginToken, AuthManager.LoginStep, AuthManager.AuthenticationManager.Login: the session token is a string. A truthy token that is not a JSON string is treated as missing, so the session becomes "session_based". Python keeps such a token, stores it and sends it as `Bearer <value>`. A token SQLite cannot bind (a list or an object) makes Python raise after the session fields were set; the model logs in.
- TrendingExtractor.Tag: a trending hashtag's name is a string, and a missing name reads as "". A null or non-string name, or an entry that is not an object, is not represented. In Python a null name is skipped by get_trending_posts_with_hashtags (trending_extractor.py:204-206), but makes `.lower()` raise in the campaign filter (trending_extractor.py:245), so get_campaign_trending_content returns the empty structure. A truthy non-string name makes `startswith` raise in get_posts_by_hashtag (trending_extractor.py:168), which ends get_trending_posts_with_hashtags with what it recorded so far.
- AuthManager.RegisterStep, AuthManager.AuthenticationManager.Register: a token that is neither a string nor null fails the registration, as null does. Python registers with it: SQLite stores a number or a boolean as text, and only a list or an object fails to bind.
- Http.Reply: every reply that has a status carries a body already decoded as a JSON object. Two kinds of answer are not represented: a body that is not JSON, on which `response.json()` raises (twoots.py:19, posting_manager.py:112 and 147, auth_manager.py:197), and a body whose top level is a list, a string or a number. So TwootsApi.Checked and the other reply handlers are stated over object bodies only.
- AuthManager.FailureMessage: the detail after " - " is the raw body text of the reply. Python appends `str()` of the decoded JSON instead (auth_manager.py:220-226, 278-284, 337-343, 402-408), and the raw text only when `json()` raises. Python's `repr` of a dictionary (its quoting, escapes, `True`/`None`) is not modelled, so a failed step's message matches Python's only in its prefix "<step> failed: <status> - ".
- TeamBot.PostIds, TeamBot.NewIds: post ids are compared as JSON values. Two Python behaviours of the dedup at social_helper.py:414-418 are not represented: an unhashable id (a list or an object) makes `post_id not in seen_posts` raise TypeError, and Python's set treats `1`, `True` and `1.0` as the same member, where the model tells them apart.
