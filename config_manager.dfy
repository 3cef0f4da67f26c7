/**
 * The team bot's configuration: API settings, database file names, bot
 * credentials and team settings, loaded from a decoded JSON configuration
 * object with environment-variable overrides, validated, and turned back into
 * the dictionary that `save_config` writes.
 *
 * The file and the environment are parameters: the configuration is the JSON
 * object already read, the environment a map from variable name to value.
 */
module ConfigManager {
  import opened Wrappers
  import opened Text
  import opened Json
  import AuthManager

  const DEFAULT_BASE_URL := "https://social.legitreal.com/api"
  const DEFAULT_TIMEOUT := 30
  const DEFAULT_RETRY_ATTEMPTS := 3
  const DEFAULT_RETRY_DELAY: real := 1.0
  const MISSING_BASE_URL := "Missing required 'base_url' in configuration"
  /** `rstrip` on a `base_url` that is not a string. */
  const BASE_URL_NOT_TEXT := "AttributeError: 'base_url' has no attribute 'rstrip'"
  /** `Path(...)` on a database name that is not a string. */
  const PATH_NOT_TEXT := "TypeError: a database path must be a string"
  /** `creds.get(...)` on a `bot_credentials` member that is not an object. */
  const LOAD_ERROR := "Error loading configuration: "
  const CREDENTIALS_NOT_OBJECT := "AttributeError: 'bot_credentials' has no attribute 'get'"

  datatype BotCredentials = BotCredentials(username: string, password: string, email: string, displayName: string)

  datatype TeamSettings = TeamSettings(
    inviteCode: Option<string>, botKey: Option<string>,
    teamName: Option<string>, affiliation: Option<string>, memberName: Option<string>, memberEmail: Option<string>)

  /** `timeout`, `retry_attempts` and `retry_delay` keep whatever JSON value the file gave. */
  datatype ApiSettings = ApiSettings(baseUrl: string, timeout: Json, retryAttempts: Json, retryDelay: Json)

  /** The three database file names, as configured. */
  datatype DatabaseSettings = DatabaseSettings(tokensDb: string, personasDb: string, teamsDb: string)

  /** The process environment: variable name to value. */
  type Env = map<string, string>

  /** `validate_config()`: one flag per section. */
  datatype Validation = Validation(api: bool, database: bool, credentials: bool, team: bool)

  const DEFAULT_API := ApiSettings(DEFAULT_BASE_URL, JInt(DEFAULT_TIMEOUT), JInt(DEFAULT_RETRY_ATTEMPTS), JFloat(DEFAULT_RETRY_DELAY))
  const DEFAULT_DATABASE := DatabaseSettings("./tokens.db", "./personas.db", "./teams.db")
  const NO_TEAM := TeamSettings(None, None, None, None, None, None)

  /** A string value of the configuration; any other value reads as absent. */
  function StrAt(o: Obj, key: string): (r: Option<string>)
    ensures r.Some? <==> key in o && o[key].JStr?
    ensures r.Some? ==> o[key] == JStr(r.value)
  {
    if key in o && o[key].JStr? then Some(o[key].s) else None
  }

  /** `os.getenv(name) or fileValue`: a non-empty environment variable wins. */
  function EnvOr(env: Env, name: string, fileValue: Option<string>): (r: Option<string>)
    ensures name in env && env[name] != "" ==> r == Some(env[name])
    ensures !(name in env && env[name] != "") ==> r == fileValue
  {
    if name in env && env[name] != "" then Some(env[name]) else fileValue
  }

  /**
   * `_load_api_settings`: a falsy `base_url` is a `KeyError`; otherwise its
   * trailing `/`s are stripped and the other settings default to 30, 3 and 1.0.
   */
  function ApiSettingsFrom(data: Obj): (r: Result<ApiSettings, string>)
    ensures !Truthy(Get(data, "base_url")) ==> r == Err(MISSING_BASE_URL)
    ensures r.Ok? <==> "base_url" in data && data["base_url"].JStr? && data["base_url"].s != ""
    ensures r.Ok? ==> r.value.baseUrl == RStripChar(data["base_url"].s, '/') && !EndsWith(r.value.baseUrl, "/")
    ensures r.Ok? ==> r.value.timeout == GetOr(data, "timeout", JInt(DEFAULT_TIMEOUT))
    ensures r.Ok? ==> r.value.retryAttempts == GetOr(data, "retry_attempts", JInt(DEFAULT_RETRY_ATTEMPTS))
    ensures r.Ok? ==> r.value.retryDelay == GetOr(data, "retry_delay", JFloat(DEFAULT_RETRY_DELAY))
  {
    var url := Get(data, "base_url");
    if !Truthy(url) then Err(MISSING_BASE_URL)
    else if !url.JStr? then Err(BASE_URL_NOT_TEXT)
    else
      var stripped := RStripChar(url.s, '/');
      assert !EndsWith(stripped, "/") by {
        if |stripped| > 0 { assert stripped[|stripped| - 1..] == [stripped[|stripped| - 1]]; }
      }
      Ok(ApiSettings(stripped, GetOr(data, "timeout", JInt(DEFAULT_TIMEOUT)),
                     GetOr(data, "retry_attempts", JInt(DEFAULT_RETRY_ATTEMPTS)),
                     GetOr(data, "retry_delay", JFloat(DEFAULT_RETRY_DELAY))))
  }

  /** A `base_url` made only of slashes passes loading but leaves an empty URL behind. */
  lemma SlashOnlyBaseUrl(data: Obj)
    requires "base_url" in data && data["base_url"] == JStr("//")
    ensures ApiSettingsFrom(data).Ok? && ApiSettingsFrom(data).value.baseUrl == ""
  {
    assert RStripChar("//", '/') == RStripChar("/", '/');
    assert RStripChar("/", '/') == RStripChar("", '/');
  }

  /**
   * One database name: absent, it is the given default; present, it must be a
   * string, since `Path(...)` raises `TypeError` on anything else (`null` included).
   */
  function DbPath(data: Obj, key: string, default: string): Result<string, string>
  {
    if key !in data then Ok(default)
    else if data[key].JStr? then Ok(data[key].s)
    else Err(PATH_NOT_TEXT)
  }

  /**
   * `_load_database_settings`, up to path resolution: each name defaults to its
   * `./<name>.db`; a configured name that is not a string fails the load.
   */
  function DatabaseSettingsFrom(data: Obj): (r: Result<DatabaseSettings, string>)
    ensures r.Ok? <==> ("tokens_db" in data ==> data["tokens_db"].JStr?) &&
                       ("personas_db" in data ==> data["personas_db"].JStr?) &&
                       ("teams_db" in data ==> data["teams_db"].JStr?)
    ensures r.Err? ==> r.error == PATH_NOT_TEXT
    ensures r.Ok? && StrAt(data, "tokens_db").None? ==> r.value.tokensDb == DEFAULT_DATABASE.tokensDb
    ensures r.Ok? && StrAt(data, "tokens_db").Some? ==> r.value.tokensDb == StrAt(data, "tokens_db").value
    ensures r.Ok? && StrAt(data, "personas_db").None? ==> r.value.personasDb == DEFAULT_DATABASE.personasDb
    ensures r.Ok? && StrAt(data, "personas_db").Some? ==> r.value.personasDb == StrAt(data, "personas_db").value
    ensures r.Ok? && StrAt(data, "teams_db").None? ==> r.value.teamsDb == DEFAULT_DATABASE.teamsDb
    ensures r.Ok? && StrAt(data, "teams_db").Some? ==> r.value.teamsDb == StrAt(data, "teams_db").value
  {
    var t := DbPath(data, "tokens_db", DEFAULT_DATABASE.tokensDb);
    var p := DbPath(data, "personas_db", DEFAULT_DATABASE.personasDb);
    var m := DbPath(data, "teams_db", DEFAULT_DATABASE.teamsDb);
    if t.Err? then Err(t.error)
    else if p.Err? then Err(p.error)
    else if m.Err? then Err(m.error)
    else Ok(DatabaseSettings(t.value, p.value, m.value))
  }

  /** The `bot_credentials` object of the configuration (an empty one when absent or not an object). */
  function CredentialsSection(data: Obj): Obj
  {
    if "bot_credentials" in data && data["bot_credentials"].JObj? then data["bot_credentials"].fields else map[]
  }

  /** The environment variable is set to a non-empty value, so `or` never looks at the file. */
  predicate EnvSet(env: Env, name: string)
  {
    name in env && env[name] != ""
  }

  /** Some credential falls through to `creds.get(...)`. */
  predicate ReadsSection(env: Env)
  {
    !(EnvSet(env, "TWOOTER_USERNAME") && EnvSet(env, "TWOOTER_PASSWORD") &&
      EnvSet(env, "TWOOTER_EMAIL") && EnvSet(env, "TWOOTER_DISPLAY_NAME"))
  }

  /** One credential field after the environment override. */
  function Credential(data: Obj, env: Env, variable: string, key: string): Option<string>
  {
    EnvOr(env, variable, StrAt(CredentialsSection(data), key))
  }

  /**
   * `_load_bot_credentials`: a `bot_credentials` member that is not an object
   * raises `AttributeError` as soon as one field is looked up in it.  Otherwise
   * the credentials exist iff all four resolved values are truthy, each taken
   * from its environment variable when that is set.
   */
  function CredentialsFrom(data: Obj, env: Env): (r: Result<Option<BotCredentials>, string>)
    ensures r.Err? <==> "bot_credentials" in data && !data["bot_credentials"].JObj? && ReadsSection(env)
    ensures r.Err? ==> r.error == CREDENTIALS_NOT_OBJECT
    ensures r.Ok? ==> (r.value.Some? <==>
      TruthyStr(Credential(data, env, "TWOOTER_USERNAME", "username")) &&
      TruthyStr(Credential(data, env, "TWOOTER_PASSWORD", "password")) &&
      TruthyStr(Credential(data, env, "TWOOTER_EMAIL", "email")) &&
      TruthyStr(Credential(data, env, "TWOOTER_DISPLAY_NAME", "display_name")))
    ensures r.Ok? && r.value.Some? ==>
      r.value.value.username == Credential(data, env, "TWOOTER_USERNAME", "username").value &&
      r.value.value.password == Credential(data, env, "TWOOTER_PASSWORD", "password").value &&
      r.value.value.email == Credential(data, env, "TWOOTER_EMAIL", "email").value &&
      r.value.value.displayName == Credential(data, env, "TWOOTER_DISPLAY_NAME", "display_name").value
  {
    if "bot_credentials" in data && !data["bot_credentials"].JObj? && ReadsSection(env) then Err(CREDENTIALS_NOT_OBJECT)
    else
      var u := Credential(data, env, "TWOOTER_USERNAME", "username");
      var p := Credential(data, env, "TWOOTER_PASSWORD", "password");
      var e := Credential(data, env, "TWOOTER_EMAIL", "email");
      var d := Credential(data, env, "TWOOTER_DISPLAY_NAME", "display_name");
      if TruthyStr(u) && TruthyStr(p) && TruthyStr(e) && TruthyStr(d) then
        Ok(Some(BotCredentials(u.value, p.value, e.value, d.value)))
      else Ok(None)
  }

  /** A set environment variable overrides the file's credential, whatever the file says. */
  lemma EnvironmentWins(data: Obj, env: Env, name: string)
    requires "TWOOTER_USERNAME" in env && env["TWOOTER_USERNAME"] == name && name != ""
    requires CredentialsFrom(data, env).Ok? && CredentialsFrom(data, env).value.Some?
    ensures CredentialsFrom(data, env).value.value.username == name
  {
  }

  /** With all four variables set, even a malformed `bot_credentials` member is never read. */
  lemma FullEnvironmentSkipsSection(data: Obj, env: Env)
    requires EnvSet(env, "TWOOTER_USERNAME") && EnvSet(env, "TWOOTER_PASSWORD")
    requires EnvSet(env, "TWOOTER_EMAIL") && EnvSet(env, "TWOOTER_DISPLAY_NAME")
    ensures CredentialsFrom(data, env).Ok? && CredentialsFrom(data, env).value.Some?
    ensures CredentialsFrom(data, env).value.value ==
      BotCredentials(env["TWOOTER_USERNAME"], env["TWOOTER_PASSWORD"], env["TWOOTER_EMAIL"], env["TWOOTER_DISPLAY_NAME"])
  {
  }

  /** `_load_team_settings`: invite code and bot key may come from the environment, the rest only from the file. */
  function TeamSettingsFrom(data: Obj, env: Env): (r: TeamSettings)
    ensures r.inviteCode == EnvOr(env, "TWOOTER_TEAM_INVITE_CODE", StrAt(data, "team_invite_code"))
    ensures r.botKey == EnvOr(env, "TWOOTER_COMPETITION_BOT_KEY", StrAt(data, "competition_bot_key"))
    ensures r.teamName == StrAt(data, "team_name") && r.affiliation == StrAt(data, "affiliation")
    ensures r.memberName == StrAt(data, "member_name") && r.memberEmail == StrAt(data, "member_email")
  {
    TeamSettings(EnvOr(env, "TWOOTER_TEAM_INVITE_CODE", StrAt(data, "team_invite_code")),
                 EnvOr(env, "TWOOTER_COMPETITION_BOT_KEY", StrAt(data, "competition_bot_key")),
                 StrAt(data, "team_name"), StrAt(data, "affiliation"),
                 StrAt(data, "member_name"), StrAt(data, "member_email"))
  }

  /** All four team-creation fields are truthy. */
  predicate TeamCreationReady(t: TeamSettings)
  {
    TruthyStr(t.teamName) && TruthyStr(t.affiliation) && TruthyStr(t.memberName) && TruthyStr(t.memberEmail)
  }

  /**
   * `validate_config`: the API needs a non-empty base URL, the credentials four
   * non-empty fields, and the team an invite code, a bot key or everything a new
   * team needs.
   */
  function Validate(api: Option<ApiSettings>, database: Option<DatabaseSettings>,
                    credentials: Option<BotCredentials>, team: Option<TeamSettings>): (v: Validation)
    ensures v.api <==> api.Some? && api.value.baseUrl != ""
    ensures v.database <==> database.Some?
    ensures v.credentials <==> credentials.Some? && credentials.value.username != "" && credentials.value.password != ""
                               && credentials.value.email != "" && credentials.value.displayName != ""
    ensures v.team <==> team.Some? && (TruthyStr(team.value.inviteCode) || TruthyStr(team.value.botKey) || TeamCreationReady(team.value))
  {
    Validation(
      api.Some? && api.value.baseUrl != "",
      database.Some?,
      credentials.Some? && credentials.value.username != "" && credentials.value.password != ""
        && credentials.value.email != "" && credentials.value.displayName != "",
      team.Some? && (TruthyStr(team.value.inviteCode) || TruthyStr(team.value.botKey) || TeamCreationReady(team.value)))
  }

  /** `get_team_info_for_registration`: the new-team details iff all four are truthy. */
  function TeamInfoOf(team: Option<TeamSettings>): (r: Option<AuthManager.TeamInfo>)
    ensures r.Some? <==> team.Some? && TeamCreationReady(team.value)
    ensures r.Some? ==> r.value == AuthManager.TeamInfo(team.value.teamName.value, team.value.affiliation.value,
                                                        team.value.memberName.value, team.value.memberEmail.value)
  {
    if team.Some? && TeamCreationReady(team.value) then
      Some(AuthManager.TeamInfo(team.value.teamName.value, team.value.affiliation.value,
                                team.value.memberName.value, team.value.memberEmail.value))
    else None
  }

  /** Credentials that loaded always validate, and team details for registration make the team section valid. */
  lemma LoadedSectionsValidate(data: Obj, env: Env, api: Option<ApiSettings>, database: Option<DatabaseSettings>,
                               team: Option<TeamSettings>)
    requires CredentialsFrom(data, env).Ok?
    ensures Validate(api, database, CredentialsFrom(data, env).value, team).credentials <==> CredentialsFrom(data, env).value.Some?
    ensures TeamInfoOf(team).Some? ==> Validate(api, database, CredentialsFrom(data, env).value, team).team
  {
  }

  const TEAM_KEYS := {"team_invite_code", "competition_bot_key", "team_name", "affiliation", "member_name", "member_email"}

  /** `d[key] = v` unless `v` is `None`. */
  function Put(d: Obj, key: string, v: Option<string>): Obj
  {
    if v.Some? then d[key := JStr(v.value)] else d
  }

  /** The dictionary form of the team settings with the `None` values left out. */
  function TeamDict(t: TeamSettings): (r: Obj)
    ensures r.Keys <= TEAM_KEYS
    ensures "team_invite_code" in r <==> t.inviteCode.Some?
    ensures "competition_bot_key" in r <==> t.botKey.Some?
    ensures "team_name" in r <==> t.teamName.Some?
    ensures "affiliation" in r <==> t.affiliation.Some?
    ensures "member_name" in r <==> t.memberName.Some?
    ensures "member_email" in r <==> t.memberEmail.Some?
    ensures StrAt(r, "team_invite_code") == t.inviteCode && StrAt(r, "competition_bot_key") == t.botKey
    ensures StrAt(r, "team_name") == t.teamName && StrAt(r, "affiliation") == t.affiliation
    ensures StrAt(r, "member_name") == t.memberName && StrAt(r, "member_email") == t.memberEmail
  {
    Put(Put(Put(Put(Put(Put(map[], "team_invite_code", t.inviteCode), "competition_bot_key", t.botKey),
        "team_name", t.teamName), "affiliation", t.affiliation), "member_name", t.memberName), "member_email", t.memberEmail)
  }

  const API_KEYS := {"base_url", "timeout", "retry_attempts", "retry_delay"}
  const DATABASE_KEYS := {"tokens_db", "personas_db", "teams_db"}

  /** `asdict(api_settings)` */
  function ApiDict(api: Option<ApiSettings>): (r: Obj)
    ensures api.None? ==> r == map[]
    ensures api.Some? ==> r.Keys == API_KEYS && r["base_url"] == JStr(api.value.baseUrl) &&
                          r["timeout"] == api.value.timeout && r["retry_attempts"] == api.value.retryAttempts &&
                          r["retry_delay"] == api.value.retryDelay
  {
    if api.None? then map[]
    else map["base_url" := JStr(api.value.baseUrl), "timeout" := api.value.timeout,
             "retry_attempts" := api.value.retryAttempts, "retry_delay" := api.value.retryDelay]
  }

  /** `asdict(database_settings)` */
  function DatabaseDict(database: Option<DatabaseSettings>): (r: Obj)
    ensures database.None? ==> r == map[]
    ensures database.Some? ==> r.Keys == DATABASE_KEYS && r["tokens_db"] == JStr(database.value.tokensDb) &&
                               r["personas_db"] == JStr(database.value.personasDb) && r["teams_db"] == JStr(database.value.teamsDb)
  {
    if database.None? then map[]
    else map["tokens_db" := JStr(database.value.tokensDb), "personas_db" := JStr(database.value.personasDb),
             "teams_db" := JStr(database.value.teamsDb)]
  }

  /** `{'bot_credentials': asdict(bot_credentials)}` */
  function CredentialsDict(credentials: Option<BotCredentials>): (r: Obj)
    ensures credentials.None? ==> r == map[]
    ensures credentials.Some? ==> r.Keys == {"bot_credentials"} && r["bot_credentials"] == JObj(CredentialFields(credentials.value))
  {
    if credentials.None? then map[]
    else map["bot_credentials" := JObj(CredentialFields(credentials.value))]
  }

  /** `asdict(bot_credentials)` */
  function CredentialFields(c: BotCredentials): (r: Obj)
    ensures StrAt(r, "username") == Some(c.username) && StrAt(r, "password") == Some(c.password)
    ensures StrAt(r, "email") == Some(c.email) && StrAt(r, "display_name") == Some(c.displayName)
  {
    map["username" := JStr(c.username), "password" := JStr(c.password),
        "email" := JStr(c.email), "display_name" := JStr(c.displayName)]
  }

  /** No two sections of the saved dictionary share a key. */
  lemma SectionKeysDisjoint()
    ensures API_KEYS !! DATABASE_KEYS && API_KEYS !! TEAM_KEYS && DATABASE_KEYS !! TEAM_KEYS
    ensures "bot_credentials" !in API_KEYS + DATABASE_KEYS + TEAM_KEYS
  {
  }

  /**
   * The dictionary `save_config` writes: the API and database settings at top
   * level, the credentials nested under `bot_credentials`, and the team settings
   * at top level without their `None` values.  No two sections share a key, so
   * each section reads back unchanged.
   */
  function ConfigDict(api: Option<ApiSettings>, database: Option<DatabaseSettings>,
                      credentials: Option<BotCredentials>, team: Option<TeamSettings>): (r: Obj)
    ensures api.Some? ==> "base_url" in r && r["base_url"] == JStr(api.value.baseUrl) &&
                          "timeout" in r && r["timeout"] == api.value.timeout &&
                          "retry_attempts" in r && r["retry_attempts"] == api.value.retryAttempts &&
                          "retry_delay" in r && r["retry_delay"] == api.value.retryDelay
    ensures database.Some? ==> StrAt(r, "tokens_db") == Some(database.value.tokensDb) &&
                               StrAt(r, "personas_db") == Some(database.value.personasDb) &&
                               StrAt(r, "teams_db") == Some(database.value.teamsDb)
    ensures "bot_credentials" in r <==> credentials.Some?
    ensures credentials.Some? ==> r["bot_credentials"] == CredentialsDict(credentials)["bot_credentials"]
    ensures forall k :: k in TEAM_KEYS ==> (k in r <==> team.Some? && k in TeamDict(team.value))
    ensures team.Some? ==> forall k :: k in TEAM_KEYS && k in r ==> r[k] == TeamDict(team.value)[k]
  {
    var a, b, c := ApiDict(api), DatabaseDict(database), CredentialsDict(credentials);
    var d := if team.Some? then TeamDict(team.value) else map[];
    SectionKeysDisjoint();
    MergeLookup(a, b, c, d, API_KEYS, DATABASE_KEYS, {"bot_credentials"}, TEAM_KEYS);
    a + b + c + d
  }

  /** Four dictionaries over pairwise disjoint key sets merge without any one overwriting another. */
  lemma MergeLookup(a: Obj, b: Obj, c: Obj, d: Obj, ka: set<string>, kb: set<string>, kc: set<string>, kd: set<string>)
    requires a.Keys <= ka && b.Keys <= kb && c.Keys <= kc && d.Keys <= kd
    requires ka !! kb && ka !! kc && ka !! kd && kb !! kc && kb !! kd && kc !! kd
    ensures forall k :: k in a ==> k in a + b + c + d && (a + b + c + d)[k] == a[k]
    ensures forall k :: k in b ==> k in a + b + c + d && (a + b + c + d)[k] == b[k]
    ensures forall k :: k in c ==> k in a + b + c + d && (a + b + c + d)[k] == c[k]
    ensures forall k :: k in d ==> k in a + b + c + d && (a + b + c + d)[k] == d[k]
    ensures forall k :: k in kd ==> (k in a + b + c + d <==> k in d)
    ensures forall k :: k in kc ==> (k in a + b + c + d <==> k in c)
  {
  }

  /** Saving then loading gives the API settings back, when the URL is non-empty and has no trailing `/`. */
  lemma ApiRoundTrip(api: ApiSettings, database: Option<DatabaseSettings>,
                     credentials: Option<BotCredentials>, team: Option<TeamSettings>)
    requires api.baseUrl != "" && !EndsWith(api.baseUrl, "/")
    ensures ApiSettingsFrom(ConfigDict(Some(api), database, credentials, team)) == Ok(api)
  {
    var d := ConfigDict(Some(api), database, credentials, team);
    assert d["base_url"] == JStr(api.baseUrl);
    assert api.baseUrl[|api.baseUrl| - 1..] == [api.baseUrl[|api.baseUrl| - 1]];
    assert RStripChar(api.baseUrl, '/') == api.baseUrl;
    assert d["timeout"] == api.timeout && d["retry_attempts"] == api.retryAttempts && d["retry_delay"] == api.retryDelay;
  }

  /** Saving then loading gives the database names back. */
  lemma DatabaseRoundTrip(api: Option<ApiSettings>, database: DatabaseSettings,
                          credentials: Option<BotCredentials>, team: Option<TeamSettings>)
    ensures DatabaseSettingsFrom(ConfigDict(api, Some(database), credentials, team)) == Ok(database)
  {
  }

  /** Saving then loading with no environment overrides gives the team settings back. */
  lemma TeamRoundTrip(api: Option<ApiSettings>, database: Option<DatabaseSettings>,
                      credentials: Option<BotCredentials>, team: TeamSettings)
    ensures TeamSettingsFrom(ConfigDict(api, database, credentials, Some(team)), map[]) == team
  {
    TeamOfDict(ConfigDict(api, database, credentials, Some(team)), team);
  }

  /** A dictionary that agrees with the team's own on every team key reads back as that team. */
  lemma TeamOfDict(d: Obj, team: TeamSettings)
    requires forall k :: k in TEAM_KEYS ==> (k in d <==> k in TeamDict(team))
    requires forall k :: k in TEAM_KEYS && k in d ==> d[k] == TeamDict(team)[k]
    ensures TeamSettingsFrom(d, map[]) == team
  {
    var t := TeamDict(team);
    forall k | k in TEAM_KEYS ensures StrAt(d, k) == StrAt(t, k) {
      if k in d {
        assert d[k] == t[k];
      }
    }
  }

  /** Saving then loading with no environment overrides gives fully set credentials back. */
  lemma CredentialsRoundTrip(api: Option<ApiSettings>, database: Option<DatabaseSettings>,
                             credentials: BotCredentials, team: Option<TeamSettings>)
    requires credentials.username != "" && credentials.password != "" && credentials.email != "" && credentials.displayName != ""
    ensures CredentialsFrom(ConfigDict(api, database, Some(credentials), team), map[]) == Ok(Some(credentials))
  {
    var d := ConfigDict(api, database, Some(credentials), team);
    CredentialsOfSection(d, credentials);
  }

  /** A configuration whose `bot_credentials` object holds four non-empty fields loads exactly them. */
  lemma CredentialsOfSection(d: Obj, credentials: BotCredentials)
    requires credentials.username != "" && credentials.password != "" && credentials.email != "" && credentials.displayName != ""
    requires "bot_credentials" in d && d["bot_credentials"] == JObj(CredentialFields(credentials))
    ensures CredentialsFrom(d, map[]) == Ok(Some(credentials))
  {
    assert CredentialsSection(d) == CredentialFields(credentials);
    assert Credential(d, map[], "TWOOTER_USERNAME", "username") == Some(credentials.username);
    assert Credential(d, map[], "TWOOTER_PASSWORD", "password") == Some(credentials.password);
    assert Credential(d, map[], "TWOOTER_EMAIL", "email") == Some(credentials.email);
    assert Credential(d, map[], "TWOOTER_DISPLAY_NAME", "display_name") == Some(credentials.displayName);
  }

  /** The configuration manager: the loaded JSON object and the four sections. */
  class ConfigurationManager {
    var configData: Obj
    var apiSettings: Option<ApiSettings>
    var databaseSettings: Option<DatabaseSettings>
    var botCredentials: Option<BotCredentials>
    var teamSettings: Option<TeamSettings>

    /** No configuration file: `_create_default_config`. */
    constructor ()
      ensures configData == map[]
      ensures apiSettings == Some(DEFAULT_API) && databaseSettings == Some(DEFAULT_DATABASE)
      ensures teamSettings == Some(NO_TEAM) && botCredentials == None
    {
      configData := map[];
      apiSettings := Some(DEFAULT_API);
      databaseSettings := Some(DEFAULT_DATABASE);
      teamSettings := Some(NO_TEAM);
      botCredentials := None;
    }

    /** `validate_config()` */
    function ValidateConfig(): (v: Validation)
      reads this
      ensures v == Validate(apiSettings, databaseSettings, botCredentials, teamSettings)
    {
      Validate(apiSettings, databaseSettings, botCredentials, teamSettings)
    }

    /** `get_team_info_for_registration()` */
    function TeamInfoForRegistration(): (r: Option<AuthManager.TeamInfo>)
      reads this
      ensures r == TeamInfoOf(teamSettings)
    {
      TeamInfoOf(teamSettings)
    }

    /** The dictionary `save_config()` writes. */
    function SaveDict(): (r: Obj)
      reads this
      ensures r == ConfigDict(apiSettings, databaseSettings, botCredentials, teamSettings)
    {
      ConfigDict(apiSettings, databaseSettings, botCredentials, teamSettings)
    }

    method LoadApiSettings() returns (r: Result<(), string>)
      modifies this
      ensures r.Ok? <==> ApiSettingsFrom(configData).Ok?
      ensures r.Ok? ==> apiSettings == Some(ApiSettingsFrom(configData).value)
      ensures r.Err? ==> r.error == ApiSettingsFrom(configData).error && apiSettings == old(apiSettings)
      ensures configData == old(configData) && databaseSettings == old(databaseSettings)
      ensures botCredentials == old(botCredentials) && teamSettings == old(teamSettings)
    {
      var url := Get(configData, "base_url");
      if !Truthy(url) {
        return Err(MISSING_BASE_URL);
      }
      if !url.JStr? {
        return Err(BASE_URL_NOT_TEXT);
      }
      apiSettings := Some(ApiSettings(RStripChar(url.s, '/'), GetOr(configData, "timeout", JInt(DEFAULT_TIMEOUT)),
                                      GetOr(configData, "retry_attempts", JInt(DEFAULT_RETRY_ATTEMPTS)),
                                      GetOr(configData, "retry_delay", JFloat(DEFAULT_RETRY_DELAY))));
      r := Ok(());
    }

    /** A name that is not a string raises before the settings change. */
    method LoadDatabaseSettings() returns (r: Result<(), string>)
      modifies this
      ensures r.Ok? <==> DatabaseSettingsFrom(configData).Ok?
      ensures r.Ok? ==> databaseSettings == Some(DatabaseSettingsFrom(configData).value)
      ensures r.Err? ==> r.error == PATH_NOT_TEXT && databaseSettings == old(databaseSettings)
      ensures configData == old(configData) && apiSettings == old(apiSettings)
      ensures botCredentials == old(botCredentials) && teamSettings == old(teamSettings)
    {
      var settings := DatabaseSettingsFrom(configData);
      if settings.Err? {
        return Err(settings.error);
      }
      databaseSettings := Some(settings.value);
      r := Ok(());
    }

    /** Incomplete credentials leave the previous ones in place; a malformed section raises. */
    method LoadBotCredentials(env: Env) returns (r: Result<(), string>)
      modifies this
      ensures r.Ok? <==> CredentialsFrom(configData, env).Ok?
      ensures r.Err? ==> r.error == CREDENTIALS_NOT_OBJECT && botCredentials == old(botCredentials)
      ensures r.Ok? ==> botCredentials == if CredentialsFrom(configData, env).value.Some?
                                          then CredentialsFrom(configData, env).value else old(botCredentials)
      ensures configData == old(configData) && apiSettings == old(apiSettings)
      ensures databaseSettings == old(databaseSettings) && teamSettings == old(teamSettings)
    {
      var section := Get(configData, "bot_credentials");
      if "bot_credentials" in configData && !section.JObj? && ReadsSection(env) {
        return Err(CREDENTIALS_NOT_OBJECT);
      }
      var username := Credential(configData, env, "TWOOTER_USERNAME", "username");
      var password := Credential(configData, env, "TWOOTER_PASSWORD", "password");
      var email := Credential(configData, env, "TWOOTER_EMAIL", "email");
      var displayName := Credential(configData, env, "TWOOTER_DISPLAY_NAME", "display_name");
      if TruthyStr(username) && TruthyStr(password) && TruthyStr(email) && TruthyStr(displayName) {
        botCredentials := Some(BotCredentials(username.value, password.value, email.value, displayName.value));
      }
      r := Ok(());
    }

    method LoadTeamSettings(env: Env)
      modifies this
      ensures teamSettings == Some(TeamSettingsFrom(configData, env))
      ensures configData == old(configData) && apiSettings == old(apiSettings)
      ensures databaseSettings == old(databaseSettings) && botCredentials == old(botCredentials)
    {
      teamSettings := Some(TeamSettingsFrom(configData, env));
    }

    /**
     * `load_config()` on an already decoded file: the sections load in order and
     * the first one that raises stops the load, keeping the sections before it.
     */
    method LoadConfig(data: Obj, env: Env) returns (r: Result<(), string>)
      modifies this
      ensures configData == data
      ensures r.Ok? <==> ApiSettingsFrom(data).Ok? && DatabaseSettingsFrom(data).Ok? && CredentialsFrom(data, env).Ok?
      ensures r.Err? ==> StartsWith(r.error, LOAD_ERROR)
      ensures apiSettings == if ApiSettingsFrom(data).Ok? then Some(ApiSettingsFrom(data).value) else old(apiSettings)
      ensures databaseSettings ==
        if ApiSettingsFrom(data).Ok? && DatabaseSettingsFrom(data).Ok? then Some(DatabaseSettingsFrom(data).value)
        else old(databaseSettings)
      ensures botCredentials ==
        if ApiSettingsFrom(data).Ok? && DatabaseSettingsFrom(data).Ok? && CredentialsFrom(data, env).Ok?
           && CredentialsFrom(data, env).value.Some?
        then CredentialsFrom(data, env).value else old(botCredentials)
      ensures teamSettings == if r.Ok? then Some(TeamSettingsFrom(data, env)) else old(teamSettings)
    {
      configData := data;
      var api := LoadApiSettings();
      if api.Err? {
        return Err(LOAD_ERROR + api.error);
      }
      var database := LoadDatabaseSettings();
      if database.Err? {
        return Err(LOAD_ERROR + database.error);
      }
      var credentials := LoadBotCredentials(env);
      if credentials.Err? {
        return Err(LOAD_ERROR + credentials.error);
      }
      LoadTeamSettings(env);
      r := Ok(());
    }
  }

  /** The defaults validate the API and database sections only: credentials and team must be configured. */
  lemma DefaultsValidation()
    ensures Validate(Some(DEFAULT_API), Some(DEFAULT_DATABASE), None, Some(NO_TEAM)) == Validation(true, true, false, false)
    ensures TeamInfoOf(Some(NO_TEAM)) == None
  {
  }
}
