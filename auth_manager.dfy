/**
 * The team bot's authentication manager: the current session (token and
 * username), the SQLite table of stored tokens keyed by username, and the
 * fallback chain stored token -> login -> bot key -> invite code -> new team.
 *
 * Every HTTP call is a parameter: the `Reply` the server gave (or the
 * `RequestException` raised instead).  The token table is a map from username
 * to the stored row; the SQLite file itself is not modelled.
 */
module AuthManager {
  import opened Wrappers
  import opened Text
  import opened Json
  import opened Http

  /** The token recorded when the server answered without one (cookie sessions). */
  const SESSION_BASED := "session_based"

  const ALL_FAILED := "\U{274c} All authentication methods failed. Please check your credentials and configuration."
  const NOT_AUTHENTICATED := "Not authenticated. Please login first."
  /** What SQLite reports when a `null` token reaches the `token TEXT NOT NULL` column. */
  const NOT_NULL_FAILED := "NOT NULL constraint failed: tokens.token"

  /** A row of the tokens table: the token and the profile stored beside it. */
  datatype TokenRow = TokenRow(token: string, userInfo: Obj)

  /** The manager's observable state: the session fields and the token table. */
  datatype AuthState = AuthState(token: Option<string>, user: Option<string>, table: map<string, TokenRow>)

  /** The new-team details handed to `register_new_team`. */
  datatype TeamInfo = TeamInfo(teamName: string, affiliation: string, memberName: string, memberEmail: string)

  /** The arguments of `authenticate_with_fallback`. */
  datatype Credentials = Credentials(
    username: string, password: string, email: string, displayName: string,
    inviteCode: Option<string>, botKey: Option<string>, teamInfo: Option<TeamInfo>)

  /** The authentication methods, in the order the fallback chain tries them. */
  datatype Method = StoredTokenCheck | PasswordLogin | BotKeyRegistration | InviteRegistration | TeamCreation

  /** The server's answers to each request the chain may send (`/auth/me` probes the stored token). */
  datatype Replies = Replies(me: Reply, login: Reply, botKey: Reply, invite: Reply, newTeam: Reply)

  /** The result of one authentication call and the state it leaves behind. */
  datatype StepOutcome = StepOutcome(result: Result<Obj, string>, state: AuthState)

  /** The result of `_validate_stored_token` and the state it leaves behind. */
  datatype Validation = Validation(valid: bool, state: AuthState)

  /** The result of the whole chain, with the methods tried in order. */
  datatype Fallback = Fallback(result: Result<Obj, string>, tried: seq<Method>, state: AuthState)

  /** `_get_stored_token(username)` */
  function StoredTokenOf(st: AuthState, u: string): (t: Option<string>)
    ensures t.Some? <==> u in st.table
  {
    if u in st.table then Some(st.table[u].token) else None
  }

  /**
   * `_validate_stored_token`: a stored token is adopted only when it is a real
   * token and the `/auth/me` probe answers 200; a rejected or unreachable one
   * is deleted and the previous session restored.  A `session_based` row is
   * always deleted; an empty token is left in place.
   */
  function ValidateStep(st: AuthState, u: string, probe: Reply): (r: Validation)
    ensures var t := StoredTokenOf(st, u);
      r.valid <==> TruthyStr(t) && t.value != SESSION_BASED && probe.Reply? && probe.status == OK
    ensures r.valid ==> r.state == st.(token := StoredTokenOf(st, u), user := Some(u))
    ensures !r.valid ==> r.state.token == st.token && r.state.user == st.user
    ensures !r.valid && TruthyStr(StoredTokenOf(st, u)) ==> r.state.table == st.table - {u}
    ensures !TruthyStr(StoredTokenOf(st, u)) ==> r.state == st
  {
    var stored := StoredTokenOf(st, u);
    if !TruthyStr(stored) then Validation(false, st)
    else if stored.value == SESSION_BASED then Validation(false, st.(table := st.table - {u}))
    else if probe.Reply? && probe.status == OK then Validation(true, st.(token := stored, user := Some(u)))
    else Validation(false, st.(table := st.table - {u}))
  }

  /**
   * The token `login` keeps from a 200 answer: the `token` member when present
   * (even if empty), otherwise `access_token`; an empty or missing one falls
   * back to the session sentinel.
   */
  function LoginToken(body: Obj): (t: string)
    ensures t != ""
    ensures "token" in body && body["token"].JStr? && body["token"].s != "" ==> t == body["token"].s
    ensures "token" in body && !(body["token"].JStr? && body["token"].s != "") ==> t == SESSION_BASED
    ensures "token" !in body && "access_token" in body && body["access_token"].JStr? && body["access_token"].s != ""
      ==> t == body["access_token"].s
    ensures "token" !in body && "access_token" in body && !(body["access_token"].JStr? && body["access_token"].s != "")
      ==> t == SESSION_BASED
    ensures "token" !in body && "access_token" !in body ==> t == SESSION_BASED
  {
    var v := if "token" in body then body["token"] else if "access_token" in body then body["access_token"] else JNull;
    if v.JStr? && v.s != "" then v.s else SESSION_BASED
  }

  /** The message a failed login or registration raises: the step, the status and the body's detail. */
  function FailureMessage(what: string, reply: Reply): string
  {
    match reply
    case NetworkError(m) => m
    case Reply(status, _, text) => what + " failed: " + IntToString(status) + " - " + text
  }

  /** `login`: only a 200 answer logs in; it sets the session and stores the row. */
  function LoginStep(st: AuthState, u: string, reply: Reply): (r: StepOutcome)
    ensures r.result.Ok? <==> reply.Reply? && reply.status == OK
    ensures r.result.Ok? ==>
      (r.result.value == reply.body
       && r.state.token == Some(LoginToken(reply.body)) && r.state.user == Some(u)
       && r.state.table == st.table[u := TokenRow(LoginToken(reply.body), reply.body)])
    ensures r.result.Err? ==> r.state == st
  {
    if reply.Reply? && reply.status == OK then
      var token := LoginToken(reply.body);
      StepOutcome(Ok(reply.body), AuthState(Some(token), Some(u), st.table[u := TokenRow(token, reply.body)]))
    else StepOutcome(Err(FailureMessage("Login", reply)), st)
  }

  /**
   * The three `register_*` calls share their answer handling: 200 or 201
   * registers; the token is `result.get('token', 'session_based')`.  A `null`
   * token sets the session token to None and then fails the NOT NULL
   * constraint, so the call raises after the session was changed.
   */
  function RegisterStep(st: AuthState, u: string, reply: Reply, what: string): (r: StepOutcome)
    ensures reply.NetworkError? || (reply.status != OK && reply.status != CREATED) ==> r.result.Err? && r.state == st
    ensures r.result.Ok? ==>
      (reply.Reply? && (reply.status == OK || reply.status == CREATED)
       && r.result.value == reply.body && r.state.user == Some(u) && r.state.token.Some?
       && r.state.table == st.table[u := TokenRow(r.state.token.value, reply.body)])
    ensures r.result.Ok? && "token" !in reply.body ==> r.state.token == Some(SESSION_BASED)
    ensures reply.Reply? && (reply.status == OK || reply.status == CREATED) && "token" in reply.body ==>
      (r.result.Ok? <==> reply.body["token"].JStr?)
    ensures r.result.Ok? && "token" in reply.body ==> r.state.token == Some(reply.body["token"].s)
    ensures reply.Reply? && r.result.Err? && (reply.status == OK || reply.status == CREATED) ==>
      r.state == st.(token := None, user := Some(u))
  {
    if reply.Reply? && (reply.status == OK || reply.status == CREATED) then
      var v := if "token" in reply.body then reply.body["token"] else JStr(SESSION_BASED);
      if v.JStr? then
        StepOutcome(Ok(reply.body), AuthState(Some(v.s), Some(u), st.table[u := TokenRow(v.s, reply.body)]))
      else StepOutcome(Err(NOT_NULL_FAILED), st.(token := None, user := Some(u)))
    else StepOutcome(Err(FailureMessage(what, reply)), st)
  }

  /** The answer `authenticate_with_fallback` gives when the stored token is used. */
  function StoredAuthBody(u: string): Obj
  {
    map["message" := JStr("Using stored authentication"), "user" := JObj(map["username" := JStr(u)])]
  }

  /** The methods the chain may try for these credentials, in order. */
  function Eligible(c: Credentials): (ms: seq<Method>)
    ensures |ms| >= 2 && ms[0] == StoredTokenCheck && ms[1] == PasswordLogin
  {
    [StoredTokenCheck] + ([PasswordLogin] + Registrations(c))
  }

  /** A list of methods in the chain's fixed order, each at most once. */
  predicate RankOrdered(ms: seq<Method>)
  {
    forall i, j :: 0 <= i < j < |ms| ==> Rank(ms[i]) < Rank(ms[j])
  }

  /** The chain is in its fixed order, and offers a registration exactly when its input was supplied. */
  lemma EligibleMethods(c: Credentials)
    ensures RankOrdered(Eligible(c))
    ensures BotKeyRegistration in Eligible(c) <==> HasText(c.botKey)
    ensures InviteRegistration in Eligible(c) <==> HasText(c.inviteCode)
    ensures TeamCreation in Eligible(c) <==> c.teamInfo.Some?
  {
    ChainFor(HasText(c.botKey), HasText(c.inviteCode), c.teamInfo.Some?);
  }

  /** The chain for the given choice of registrations, built up from its end. */
  lemma ChainFor(bot: bool, invite: bool, team: bool)
    ensures var ms := [StoredTokenCheck] + ([PasswordLogin] + (Optional(bot, BotKeyRegistration)
                        + (Optional(invite, InviteRegistration) + Optional(team, TeamCreation))));
      RankOrdered(ms)
      && (BotKeyRegistration in ms <==> bot) && (InviteRegistration in ms <==> invite) && (TeamCreation in ms <==> team)
  {
    var t := Optional(team, TeamCreation);
    var i := Optional(invite, InviteRegistration);
    var b := Optional(bot, BotKeyRegistration);
    RankedPrefix(i, t, 3);
    RankedPrefix(b, i + t, 2);
    RankedPrefix([PasswordLogin], b + (i + t), 1);
    RankedPrefix([StoredTokenCheck], [PasswordLogin] + (b + (i + t)), 0);
  }

  function Optional(present: bool, m: Method): (r: seq<Method>)
    ensures m in r <==> present
    ensures forall x :: x in r ==> x == m
    ensures |r| <= 1
  {
    if present then [m] else []
  }

  /** Putting at most one method of rank `k` before methods ranked higher keeps a list in rank order. */
  lemma RankedPrefix(first: seq<Method>, ms: seq<Method>, k: nat)
    requires |first| <= 1 && forall m :: m in first ==> Rank(m) == k
    requires RankOrdered(ms) && forall m :: m in ms ==> Rank(m) > k
    ensures RankOrdered(first + ms) && forall m :: m in first + ms ==> Rank(m) >= k
  {
    var all := first + ms;
    forall i, j | 0 <= i < j < |all|
      ensures Rank(all[i]) < Rank(all[j])
    {
      if i < |first| {
        assert all[i] in first && all[j] == ms[j - |first|];
        assert all[j] in ms;
      } else {
        assert all[i] == ms[i - |first|] && all[j] == ms[j - |first|];
      }
    }
  }

  /** The registrations the chain may fall back to: bot key, invite code, new team. */
  function Registrations(c: Credentials): seq<Method>
  {
    Optional(HasText(c.botKey), BotKeyRegistration)
      + (Optional(HasText(c.inviteCode), InviteRegistration) + Optional(c.teamInfo.Some?, TeamCreation))
  }

  function Rank(m: Method): nat
  {
    match m
    case StoredTokenCheck => 0
    case PasswordLogin => 1
    case BotKeyRegistration => 2
    case InviteRegistration => 3
    case TeamCreation => 4
  }

  /** One method of the chain, run against the server's answer for it. */
  function Attempt(st: AuthState, m: Method, c: Credentials, net: Replies): StepOutcome
  {
    match m
    case StoredTokenCheck =>
      var v := ValidateStep(st, c.username, net.me);
      StepOutcome(if v.valid then Ok(StoredAuthBody(c.username)) else Err("no usable stored token"), v.state)
    case PasswordLogin => LoginStep(st, c.username, net.login)
    case BotKeyRegistration => RegisterStep(st, c.username, net.botKey, "Bot registration")
    case InviteRegistration => RegisterStep(st, c.username, net.invite, "Team registration")
    case TeamCreation => RegisterStep(st, c.username, net.newTeam, "Team creation")
  }

  /**
   * Tries `ms` in order and stops at the first success; raises only when every
   * method was tried and failed.
   */
  function RunChain(st: AuthState, ms: seq<Method>, c: Credentials, net: Replies): (r: Fallback)
    ensures |r.tried| <= |ms| && r.tried == ms[..|r.tried|]
    ensures |ms| > 0 ==> |r.tried| >= 1
    ensures r.result.Err? ==> r.tried == ms && r.result.error == ALL_FAILED
    ensures |ms| > 0 && Attempt(st, ms[0], c, net).result.Ok? ==>
      r == Fallback(Attempt(st, ms[0], c, net).result, [ms[0]], Attempt(st, ms[0], c, net).state)
    decreases |ms|
  {
    if |ms| == 0 then Fallback(Err(ALL_FAILED), [], st)
    else
      var a := Attempt(st, ms[0], c, net);
      if a.result.Ok? then Fallback(a.result, [ms[0]], a.state)
      else
        var rest := RunChain(a.state, ms[1..], c, net);
        Fallback(rest.result, [ms[0]] + rest.tried, rest.state)
  }

  /** `authenticate_with_fallback` as a function of the state before the call. */
  function FallbackSpec(st: AuthState, c: Credentials, net: Replies): Fallback
  {
    RunChain(st, Eligible(c), c, net)
  }

  /** A successful `authenticate_with_fallback` leaves the manager authenticated as the requested user. */
  lemma FallbackOkAuthenticates(st: AuthState, c: Credentials, net: Replies)
    requires FallbackSpec(st, c, net).result.Ok?
    ensures FallbackSpec(st, c, net).state.token.Some? && FallbackSpec(st, c, net).state.user == Some(c.username)
  {
    ChainOkAuthenticates(st, Eligible(c), c, net);
  }

  /** A usable stored token ends the chain at once: no login is attempted. */
  lemma StoredTokenShortCircuits(st: AuthState, c: Credentials, net: Replies)
    requires ValidateStep(st, c.username, net.me).valid
    ensures var f := FallbackSpec(st, c, net);
      f.tried == [StoredTokenCheck] && f.result == Ok(StoredAuthBody(c.username))
      && f.state.token == StoredTokenOf(st, c.username) && f.state.user == Some(c.username)
  {
  }

  /**
   * The chain tries the methods in their fixed order, login always second
   * when the stored token fails, and a bot key, invite code or team only when
   * one was supplied.
   */
  lemma {:induction false} FallbackOrder(st: AuthState, c: Credentials, net: Replies)
    ensures var f := FallbackSpec(st, c, net);
      |f.tried| >= 1 && f.tried[0] == StoredTokenCheck
      && (!ValidateStep(st, c.username, net.me).valid ==> |f.tried| >= 2 && f.tried[1] == PasswordLogin)
      && RankOrdered(f.tried)
      && (BotKeyRegistration in f.tried ==> HasText(c.botKey))
      && (InviteRegistration in f.tried ==> HasText(c.inviteCode))
      && (TeamCreation in f.tried ==> c.teamInfo.Some?)
  {
    var ms := Eligible(c);
    EligibleMethods(c);
    var f := FallbackSpec(st, c, net);
    var a := Attempt(st, StoredTokenCheck, c, net);
    if !ValidateStep(st, c.username, net.me).valid {
      assert a.result.Err?;
      var rest := RunChain(a.state, ms[1..], c, net);
      assert f.tried == [StoredTokenCheck] + rest.tried;
      assert |rest.tried| >= 1 && rest.tried[0] == ms[1];
    }
    forall m | m in f.tried ensures m in ms {
      var k :| 0 <= k < |f.tried| && f.tried[k] == m;
      assert ms[k] == m;
    }
  }

  /** Every successful run of the chain leaves a session for the given user. */
  lemma {:induction false} ChainOkAuthenticates(st: AuthState, ms: seq<Method>, c: Credentials, net: Replies)
    requires RunChain(st, ms, c, net).result.Ok?
    ensures RunChain(st, ms, c, net).state.token.Some?
    ensures RunChain(st, ms, c, net).state.user == Some(c.username)
    decreases |ms|
  {
    var a := Attempt(st, ms[0], c, net);
    if a.result.Ok? {
      match ms[0]
      case StoredTokenCheck =>
        assert ValidateStep(st, c.username, net.me).valid;
      case _ =>
    } else {
      ChainOkAuthenticates(a.state, ms[1..], c, net);
    }
  }

  /** `get_auth_headers`: refused without a token; Bearer only for a real token. */
  function AuthHeaders(token: Option<string>): (r: Result<map<string, string>, string>)
    ensures r.Err? <==> !TruthyStr(token)
    ensures r.Ok? ==> "Content-Type" in r.value && r.value["Content-Type"] == "application/json"
    ensures r.Ok? ==> ("Authorization" in r.value <==> token.value != SESSION_BASED)
    ensures r.Ok? && "Authorization" in r.value ==> r.value["Authorization"] == "Bearer " + token.value
    ensures r.Ok? ==> r.value.Keys <= {"Content-Type", "Authorization"}
  {
    if !TruthyStr(token) then Err(NOT_AUTHENTICATED)
    else
      var base := map["Content-Type" := "application/json"];
      Ok(if token.value != SESSION_BASED then base["Authorization" := "Bearer " + token.value] else base)
  }

  /** A stored token that passed validation is sent as a Bearer credential. */
  lemma ValidatedTokenIsBearer(st: AuthState, u: string, probe: Reply)
    requires ValidateStep(st, u, probe).valid
    ensures var h := AuthHeaders(ValidateStep(st, u, probe).state.token);
      h.Ok? && "Authorization" in h.value && h.value["Authorization"] == "Bearer " + StoredTokenOf(st, u).value
  {
  }

  /** The account fields every registration sends. */
  const PROFILE_KEYS := {"username", "password", "email", "display_name"}

  /** The request each method sends: path below the API base URL and JSON body. */
  function Payload(m: Method, c: Credentials): (r: Request)
    requires m != StoredTokenCheck
    requires m == TeamCreation ==> c.teamInfo.Some?
    ensures r.verb == POST
    ensures "username" in r.body && r.body["username"] == JStr(c.username)
    ensures "password" in r.body && r.body["password"] == JStr(c.password)
    ensures m == PasswordLogin <==> "email" !in r.body
    ensures m == PasswordLogin ==> r.path == "/auth/login" && r.body.Keys == {"username", "password"}
    ensures m != PasswordLogin ==>
      "email" in r.body && r.body["email"] == JStr(c.email) &&
      "display_name" in r.body && r.body["display_name"] == JStr(c.displayName)
    ensures m == BotKeyRegistration ==>
      (r.path == "/auth/register-bot" && "key" in r.body && r.body["key"] == StrOrNull(c.botKey)
       && "member_email" in r.body && r.body["member_email"] == JStr(c.email))
    ensures m == InviteRegistration ==>
      (r.path == "/auth/register" && "invite_code" in r.body && r.body["invite_code"] == StrOrNull(c.inviteCode))
    ensures m == TeamCreation ==>
      (r.path == "/auth/register-team" && "team_name" in r.body && r.body["team_name"] == JStr(c.teamInfo.value.teamName))
  {
    var who := map["username" := JStr(c.username), "password" := JStr(c.password)];
    var profile := who["email" := JStr(c.email)]["display_name" := JStr(c.displayName)];
    match m
    case PasswordLogin => Request(POST, "/auth/login", who, map[])
    case BotKeyRegistration =>
      Request(POST, "/auth/register-bot", profile["key" := StrOrNull(c.botKey)]["member_email" := JStr(c.email)], map[])
    case InviteRegistration => Request(POST, "/auth/register", profile["invite_code" := StrOrNull(c.inviteCode)], map[])
    case TeamCreation =>
      var t := c.teamInfo.value;
      Request(POST, "/auth/register-team",
        profile["team_name" := JStr(t.teamName)]["affiliation" := JStr(t.affiliation)]
               ["member_name" := JStr(t.memberName)]["member_email" := JStr(t.memberEmail)], map[])
  }

  /** The bot-key registration sends the account fields, the key and the member email, and nothing else. */
  lemma BotKeyPayloadFields(c: Credentials)
    ensures Payload(BotKeyRegistration, c).body.Keys == PROFILE_KEYS + {"key", "member_email"}
  {
  }

  /** The invite registration sends the account fields and the invite code, and nothing else. */
  lemma InvitePayloadFields(c: Credentials)
    ensures Payload(InviteRegistration, c).body.Keys == PROFILE_KEYS + {"invite_code"}
  {
  }

  /** The team creation sends the account fields and the four team fields with their values, and nothing else. */
  lemma TeamPayloadFields(c: Credentials)
    requires c.teamInfo.Some?
    ensures var b := Payload(TeamCreation, c).body;
      b.Keys == PROFILE_KEYS + {"team_name", "affiliation", "member_name", "member_email"} &&
      b["affiliation"] == JStr(c.teamInfo.value.affiliation) &&
      b["member_name"] == JStr(c.teamInfo.value.memberName) &&
      b["member_email"] == JStr(c.teamInfo.value.memberEmail)
  {
  }

  class AuthenticationManager {
    const baseUrl: string
    var currentToken: Option<string>
    var currentUsername: Option<string>
    /** The tokens table: username -> (token, user_info). */
    var tokens: map<string, TokenRow>

    function State(): AuthState
      reads this
    {
      AuthState(currentToken, currentUsername, tokens)
    }

    /** A new manager starts logged out, over whatever table the database file already holds. */
    constructor (baseUrl: string, persisted: map<string, TokenRow>)
      ensures this.baseUrl == RStripChar(baseUrl, '/')
      ensures State() == AuthState(None, None, persisted)
    {
      this.baseUrl := RStripChar(baseUrl, '/');
      currentToken := None;
      currentUsername := None;
      tokens := persisted;
    }

    /** `_store_token`: INSERT OR REPLACE of the user's row. */
    method StoreToken(u: string, token: string, info: Obj)
      modifies this`tokens
      ensures tokens == old(tokens)[u := TokenRow(token, info)]
    {
      tokens := tokens[u := TokenRow(token, info)];
    }

    method GetStoredToken(u: string) returns (t: Option<string>)
      ensures t.Some? <==> u in tokens
      ensures t.Some? ==> t.value == tokens[u].token
    {
      t := if u in tokens then Some(tokens[u].token) else None;
    }

    /** `_remove_stored_token`: DELETE of the user's row. */
    method RemoveStoredToken(u: string)
      modifies this`tokens
      ensures tokens == old(tokens) - {u}
    {
      tokens := tokens - {u};
    }

    method ValidateStoredToken(u: string, probe: Reply) returns (valid: bool)
      modifies this
      ensures var v := ValidateStep(old(State()), u, probe); valid == v.valid && State() == v.state
    {
      var stored := GetStoredToken(u);
      if !TruthyStr(stored) {
        return false;
      }
      if stored.value == SESSION_BASED {
        RemoveStoredToken(u);
        return false;
      }
      var oldToken, oldUser := currentToken, currentUsername;
      currentToken, currentUsername := stored, Some(u);
      // the probe sends get_auth_headers(), which succeeds: the token is non-empty
      valid := probe.Reply? && probe.status == OK;
      if !valid {
        RemoveStoredToken(u);
        currentToken, currentUsername := oldToken, oldUser;
      }
    }

    method Login(u: string, reply: Reply) returns (r: Result<Obj, string>)
      modifies this
      ensures var s := LoginStep(old(State()), u, reply); r == s.result && State() == s.state
    {
      if reply.Reply? && reply.status == OK {
        var token := LoginToken(reply.body);
        currentToken := Some(token);
        currentUsername := Some(u);
        StoreToken(u, token, reply.body);
        r := Ok(reply.body);
      } else {
        r := Err(FailureMessage("Login", reply));
      }
    }

    /** `register_with_team_invite`, `register_with_bot_key` and `register_new_team` after their request. */
    method Register(u: string, reply: Reply, what: string) returns (r: Result<Obj, string>)
      modifies this
      ensures var s := RegisterStep(old(State()), u, reply, what); r == s.result && State() == s.state
    {
      if reply.Reply? && (reply.status == OK || reply.status == CREATED) {
        var token := if "token" in reply.body then reply.body["token"] else JStr(SESSION_BASED);
        if token.JStr? {
          currentToken := Some(token.s);
          currentUsername := Some(u);
          StoreToken(u, token.s, reply.body);
          r := Ok(reply.body);
        } else {
          currentToken := None;
          currentUsername := Some(u);
          r := Err(NOT_NULL_FAILED);
        }
      } else {
        r := Err(FailureMessage(what, reply));
      }
    }

    /** One method of the chain: the stored-token check, the login, or one of the registrations. */
    method Try(m: Method, c: Credentials, net: Replies) returns (r: Result<Obj, string>)
      modifies this
      ensures var a := Attempt(old(State()), m, c, net); r == a.result && State() == a.state
    {
      match m
      case StoredTokenCheck =>
        var valid := ValidateStoredToken(c.username, net.me);
        r := if valid then Ok(StoredAuthBody(c.username)) else Err("no usable stored token");
      case PasswordLogin => r := Login(c.username, net.login);
      case BotKeyRegistration => r := Register(c.username, net.botKey, "Bot registration");
      case InviteRegistration => r := Register(c.username, net.invite, "Team registration");
      case TeamCreation => r := Register(c.username, net.newTeam, "Team creation");
    }

    method AuthenticateWithFallback(c: Credentials, net: Replies) returns (r: Result<Obj, string>, tried: seq<Method>)
      modifies this
      ensures FallbackSpec(old(State()), c, net) == Fallback(r, tried, State())
    {
      ghost var rest := Registrations(c);
      ghost var s0 := State();
      tried := [StoredTokenCheck];
      r := Try(StoredTokenCheck, c, net);
      if r.Ok? {
        ChainSucceedsAt(s0, StoredTokenCheck, [PasswordLogin] + rest, c, net);
        return;
      }
      ChainFailsAt(s0, StoredTokenCheck, [PasswordLogin] + rest, c, net);
      ghost var s1 := State();
      tried := tried + [PasswordLogin];
      r := Try(PasswordLogin, c, net);
      if r.Ok? {
        ChainSucceedsAt(s1, PasswordLogin, rest, c, net);
        return;
      }
      ChainFailsAt(s1, PasswordLogin, rest, c, net);
      PrefixedTwice([StoredTokenCheck], [PasswordLogin], RunChain(State(), rest, c, net));
      r, tried := TryRegistrations(c, net, tried);
    }

    /** The registrations of the chain, tried in order after the methods in `done` failed. */
    method TryRegistrations(c: Credentials, net: Replies, done: seq<Method>) returns (r: Result<Obj, string>, tried: seq<Method>)
      modifies this
      ensures Prefixed(done, RunChain(old(State()), Registrations(c), c, net)) == Fallback(r, tried, State())
    {
      ghost var team := Optional(c.teamInfo.Some?, TeamCreation);
      ghost var invite := Optional(HasText(c.inviteCode), InviteRegistration) + team;
      var stop;
      r, tried, stop := TryIfGiven(HasText(c.botKey), BotKeyRegistration, invite, done, c, net);
      if stop { return; }
      r, tried, stop := TryIfGiven(HasText(c.inviteCode), InviteRegistration, team, tried, c, net);
      if stop { return; }
      assert team == team + [];
      r, tried, stop := TryIfGiven(c.teamInfo.Some?, TeamCreation, [], tried, c, net);
      if stop { return; }
      assert tried + [] == tried;
      r := Err(ALL_FAILED);
    }

    /**
     * One registration of the chain, tried only when its input was given:
     * `stop` when it succeeded, otherwise the chain goes on with `tail`.
     */
    method TryIfGiven(given: bool, m: Method, ghost tail: seq<Method>, done: seq<Method>, c: Credentials, net: Replies)
      returns (r: Result<Obj, string>, tried: seq<Method>, stop: bool)
      modifies this
      ensures stop ==> Prefixed(done, RunChain(old(State()), Optional(given, m) + tail, c, net)) == Fallback(r, tried, State())
      ensures !stop ==> Prefixed(done, RunChain(old(State()), Optional(given, m) + tail, c, net))
                        == Prefixed(tried, RunChain(State(), tail, c, net))
    {
      if given {
        ghost var rest';
        r, tried, rest' := TryNext(m, [m] + tail, done, c, net);
        assert ([m] + tail)[1..] == tail;
        stop := r.Ok?;
      } else {
        assert Optional(given, m) + tail == tail;
        r, tried, stop := Err(ALL_FAILED), done, false;
      }
    }

    /** Tries `m`, the next method of the chain, after the methods in `done` failed. */
    method TryNext(m: Method, ghost rest: seq<Method>, done: seq<Method>, c: Credentials, net: Replies)
      returns (r: Result<Obj, string>, tried: seq<Method>, ghost rest': seq<Method>)
      requires |rest| > 0 && rest[0] == m
      modifies this
      ensures tried == done + [m] && rest' == rest[1..]
      ensures r.Ok? ==> Prefixed(done, RunChain(old(State()), rest, c, net)) == Fallback(r, tried, State())
      ensures r.Err? ==> Prefixed(done, RunChain(old(State()), rest, c, net)) == Prefixed(tried, RunChain(State(), rest', c, net))
    {
      ghost var before := State();
      assert rest == [m] + rest[1..];
      tried := done + [m];
      rest' := rest[1..];
      r := Try(m, c, net);
      if r.Ok? {
        ChainSucceedsAt(before, m, rest', c, net);
      } else {
        ChainFailsAt(before, m, rest', c, net);
        PrefixedTwice(done, [m], RunChain(State(), rest', c, net));
      }
    }

    method GetAuthHeaders() returns (h: Result<map<string, string>, string>)
      ensures h == AuthHeaders(currentToken)
    {
      if !TruthyStr(currentToken) {
        return Err(NOT_AUTHENTICATED);
      }
      var headers := map["Content-Type" := "application/json"];
      if currentToken.value != SESSION_BASED {
        headers := headers["Authorization" := "Bearer " + currentToken.value];
      }
      h := Ok(headers);
    }

    /**
     * `logout`: the stored row goes only when both session fields are set;
     * the session is cleared in every case.  The server call's outcome is ignored.
     */
    method Logout()
      modifies this
      ensures currentToken == None && currentUsername == None && !IsAuthenticated()
      ensures tokens == if TruthyStr(old(currentToken)) && TruthyStr(old(currentUsername))
        then old(tokens) - {old(currentUsername).value} else old(tokens)
    {
      if TruthyStr(currentToken) && TruthyStr(currentUsername) {
        RemoveStoredToken(currentUsername.value);
      }
      currentToken := None;
      currentUsername := None;
    }

    /**
     * `is_authenticated`: any token, even an empty one, counts, so it claims a
     * little more than `get_auth_headers` can deliver.
     */
    function IsAuthenticated(): (r: bool)
      reads this
      ensures r <==> AuthHeaders(currentToken).Ok? || currentToken == Some("")
    {
      currentToken.Some?
    }
  }

  /** The rest of a chain run, after the methods in `done` were tried and failed. */
  function Prefixed(done: seq<Method>, f: Fallback): Fallback
  {
    f.(tried := done + f.tried)
  }

  lemma ChainFailsAt(st: AuthState, m: Method, rest: seq<Method>, c: Credentials, net: Replies)
    requires Attempt(st, m, c, net).result.Err?
    ensures RunChain(st, [m] + rest, c, net) == Prefixed([m], RunChain(Attempt(st, m, c, net).state, rest, c, net))
  {
    assert ([m] + rest)[1..] == rest;
  }

  lemma ChainSucceedsAt(st: AuthState, m: Method, rest: seq<Method>, c: Credentials, net: Replies)
    requires Attempt(st, m, c, net).result.Ok?
    ensures RunChain(st, [m] + rest, c, net) == Fallback(Attempt(st, m, c, net).result, [m], Attempt(st, m, c, net).state)
  {
  }

  lemma PrefixedTwice(a: seq<Method>, b: seq<Method>, f: Fallback)
    ensures Prefixed(a, Prefixed(b, f)) == Prefixed(a + b, f)
  {
    assert a + (b + f.tried) == (a + b) + f.tried;
  }
}
