/**
 * The packaged client's `/auth` endpoints: the request each call sends.
 * The session object that sends them and its headers are not part of this model.
 */
module AuthApi {
  import opened Wrappers
  import opened Text
  import opened Json
  import opened Http

  const BASE := "/auth"

  function LoginRequest(username: string, password: string): (r: Request)
    ensures r.verb == POST && r.path == "/auth/login"
    ensures r.body.Keys == {"username", "password"}
    ensures r.body["username"] == JStr(username) && r.body["password"] == JStr(password)
  {
    Request(POST, BASE + "/login", map["username" := JStr(username), "password" := JStr(password)], map[])
  }

  /**
   * `register`: a (non-empty) bot key wins over an invite code; with neither,
   * only the three account fields are sent.
   */
  function RegisterRequest(username: string, displayName: string, password: string,
                           inviteCode: Option<string>, botKey: Option<string>): (r: Request)
    ensures r.verb == POST && r.path == "/auth/register"
    ensures {"username", "display_name", "password"} <= r.body.Keys
    ensures r.body["username"] == JStr(username) && r.body["display_name"] == JStr(displayName)
      && r.body["password"] == JStr(password)
    ensures "competition_bot_key" in r.body <==> TruthyStr(botKey)
    ensures "invite_code" in r.body <==> !TruthyStr(botKey) && TruthyStr(inviteCode)
    ensures "competition_bot_key" in r.body ==> r.body["competition_bot_key"] == JStr(botKey.value)
    ensures "invite_code" in r.body ==> r.body["invite_code"] == JStr(inviteCode.value)
    ensures r.body.Keys <= {"username", "display_name", "password", "competition_bot_key", "invite_code"}
  {
    var account := map["username" := JStr(username), "display_name" := JStr(displayName), "password" := JStr(password)];
    var body :=
      if TruthyStr(botKey) then account["competition_bot_key" := JStr(botKey.value)]
      else if TruthyStr(inviteCode) then account["invite_code" := JStr(inviteCode.value)]
      else account;
    Request(POST, BASE + "/register", body, map[])
  }

  /** `register_team`: the team and its first member travel as nested objects. */
  function RegisterTeamRequest(username: string, displayName: string, password: string, teamName: string,
                               affiliation: string, firstMemberName: string, firstMemberEmail: string): (r: Request)
    ensures r.verb == POST && r.path == "/auth/register-team"
    ensures r.body.Keys == {"username", "display_name", "password", "team"}
    ensures r.body["username"] == JStr(username) && r.body["display_name"] == JStr(displayName)
      && r.body["password"] == JStr(password)
    ensures r.body["team"].JObj? && r.body["team"].fields.Keys == {"name", "affiliation", "first_member"}
    ensures r.body["team"].fields["name"] == JStr(teamName)
    ensures r.body["team"].fields["affiliation"] == JStr(affiliation)
    ensures r.body["team"].fields["first_member"] ==
      JObj(map["name" := JStr(firstMemberName), "email" := JStr(firstMemberEmail)])
  {
    var member := map["name" := JStr(firstMemberName), "email" := JStr(firstMemberEmail)];
    var team := map["name" := JStr(teamName), "affiliation" := JStr(affiliation), "first_member" := JObj(member)];
    Request(POST, BASE + "/register-team",
      map["username" := JStr(username), "display_name" := JStr(displayName), "password" := JStr(password),
          "team" := JObj(team)], map[])
  }

  function ChangePasswordRequest(newPassword: string): (r: Request)
    ensures r.verb == POST && r.path == "/auth/change-password"
    ensures r.body.Keys == {"new_password"} && r.body["new_password"] == JStr(newPassword)
  {
    Request(POST, BASE + "/change-password", map["new_password" := JStr(newPassword)], map[])
  }

  function LogoutRequest(): (r: Request)
    ensures r.verb == POST && r.path == "/auth/logout" && r.body == map[]
  {
    Request(POST, BASE + "/logout", map[], map[])
  }
}
