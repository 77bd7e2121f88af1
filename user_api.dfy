/**
 * The second client (`front/src/lib/userApi.js`), aimed at another port: the
 * same login / refresh / logout, and every user endpoint routed through
 * `fetchWithAuth`, which merges the caller's headers, adds the bearer token
 * and retries once after a 401.
 */
module UserApi {
  import opened Js
  import opened Browser
  import Api

  const BaseUrl := "http://127.0.0.1:8000"

  /** The headers `fetchWithAuth` sends first: the caller's, then JSON content type and the bearer token. */
  function MergedHeaders(headers: Option<map<string, string>>, token: string): (h: map<string, string>)
    ensures "Content-Type" in h && h["Content-Type"] == "application/json"
    ensures "Authorization" in h && h["Authorization"] == Api.Bearer(token)
    ensures headers.Some? ==> forall k :: k in headers.value && k != "Content-Type" && k != "Authorization" ==>
              k in h && h[k] == headers.value[k]
    ensures h.Keys == (if headers.Some? then headers.value.Keys else {}) + {"Content-Type", "Authorization"}
  {
    var base := if headers.Some? then headers.value else map[];
    base["Content-Type" := "application/json"]["Authorization" := Api.Bearer(token)]
  }

  /** The request `fetchWithAuth(url, options)` starts from, before the token is added. */
  function Prototype(url: string, verb: string, headers: Option<map<string, string>>, body: Option<Json>): Request
  {
    var base := if headers.Some? then headers.value else map[];
    Request(url, verb, base["Content-Type" := "application/json"], body)
  }

  /**
   * `fetchWithAuth(url, options)`: nothing is sent without an access token;
   * the first request carries the merged headers; after a 401 the token is
   * refreshed against this client's server and the request is repeated once.
   */
  function FetchWithAuth(w: World, url: string, verb: string, headers: Option<map<string, string>>, body: Option<Json>)
    : (out: (World, Result<Response>))
    ensures !Filled(GetItem(w, Api.AccessKey)) ==> out == (w, Err(Api.NotAuthenticated))
    ensures Filled(GetItem(w, Api.AccessKey)) ==>
              |out.0.sent| > |w.sent|
              && out.0.sent[|w.sent|] == Request(url, verb, MergedHeaders(headers, w.storage[Api.AccessKey]), body)
    ensures Filled(GetItem(w, Api.AccessKey)) ==>
              out == Api.WithRetry(w, BaseUrl, w.storage[Api.AccessKey], Prototype(url, verb, headers, body))
    ensures |out.0.sent| <= |w.sent| + 3
    ensures Api.SameButAccess(w.storage, out.0.storage)
    ensures out.0.nav == w.nav && out.0.toasts == w.toasts
  {
    var token := GetItem(w, Api.AccessKey);
    if !Filled(token) then (w, Err(Api.NotAuthenticated))
    else
      var out := Api.WithRetry(w, BaseUrl, token.value, Prototype(url, verb, headers, body));
      assert Api.Authorize(Prototype(url, verb, headers, body), token.value)
          == Request(url, verb, MergedHeaders(headers, token.value), body);
      out
  }

  /**
   * After a 401 and a granted refresh, `fetchWithAuth` resends once with the
   * renewed token and returns that answer as it is, even a second 401: three
   * requests in all.
   */
  lemma SecondAnswerReturned(w: World, url: string, verb: string, headers: Option<map<string, string>>, body: Option<Json>)
    requires Filled(GetItem(w, Api.AccessKey)) && Filled(GetItem(w, Api.RefreshKey))
    requires |w.replies| >= 3 && Api.Is401(w.replies[0]) && Api.RefreshGranted(w.replies[1]) && w.replies[2].Answer?
    ensures var (w', r) := FetchWithAuth(w, url, verb, headers, body);
            w'.sent == w.sent + [Request(url, verb, MergedHeaders(headers, w.storage[Api.AccessKey]), body),
                                 Api.RefreshRequest(BaseUrl, w.storage[Api.RefreshKey]),
                                 Request(url, verb, MergedHeaders(headers, Api.Renewed(w.replies[1])), body)]
            && w'.storage == w.storage[Api.AccessKey := Api.Renewed(w.replies[1])]
            && r == Ok(w.replies[2].response)
  {
    var proto := Prototype(url, verb, headers, body);
    Api.RetryAnswerIsFinal(w, BaseUrl, w.storage[Api.AccessKey], proto);
    assert Api.Authorize(proto, w.storage[Api.AccessKey]) == Request(url, verb, MergedHeaders(headers, w.storage[Api.AccessKey]), body);
    assert Api.Authorize(proto, Api.Renewed(w.replies[1])) == Request(url, verb, MergedHeaders(headers, Api.Renewed(w.replies[1])), body);
  }

  /** `login(email, password)` of this client: the tokens are written only when the login succeeds. */
  function Login(w: World, email: string, password: string): (out: (World, Result<Json>))
    ensures out.0.sent == w.sent + [Api.LoginRequest(BaseUrl, email, password)]
    ensures out.1.Err? ==> out.0.storage == w.storage
    ensures out.1.Ok? ==>
              out.0.storage == w.storage[Api.AccessKey := JsString(Member(out.1.value, "access"))]
                                        [Api.RefreshKey := JsString(Member(out.1.value, "refresh"))]
    ensures out.1.Ok? <==> Api.NextIsOkJson(w) && Api.NextReply(w).response.body.value != JNull
    ensures out.0.nav == w.nav && out.0.toasts == w.toasts
    ensures Api.NextReply(w).Answer? && Api.NextReply(w).response.body.None? ==>
              out.1 == Err(Error("Internal server error", None))
    ensures Api.NextReply(w).Answer? && !Api.NextReply(w).response.IsOk() && Api.NextReply(w).response.body.Some?
              && Api.NextReply(w).response.body.value != JNull ==>
              out.1 == Err(Error(Api.MessageOr(Api.NextReply(w).response.body.value, "message", "Login failed"),
                                 Some(Api.NextReply(w).response.status)))
  {
    Api.Login(w, BaseUrl, email, password)
  }

  /** `refreshAccessToken()` of this client: only the access token can change, and only on success. */
  function RefreshAccessToken(w: World): (out: (World, Result<Option<Json>>))
    ensures !Filled(GetItem(w, Api.RefreshKey)) ==> out == (w, Err(Api.NoRefreshToken))
    ensures Filled(GetItem(w, Api.RefreshKey)) ==> out.0.sent == w.sent + [Api.RefreshRequest(BaseUrl, w.storage[Api.RefreshKey])]
    ensures out.1.Err? ==> out.0.storage == w.storage
    ensures out.1.Ok? ==> out.0.storage == w.storage[Api.AccessKey := JsString(out.1.value)]
  {
    Api.RefreshAccessToken(w, BaseUrl)
  }

  const LogoutTarget := "/login"

  /** `logout()` of this client: both tokens are removed and the page goes to /login. */
  function Logout(w: World): (w': World)
    ensures Api.AccessKey !in w'.storage && Api.RefreshKey !in w'.storage
    ensures w'.nav == w.nav + [Assign(LogoutTarget)]
    ensures w'.sent == w.sent
  {
    Api.Logout(w, LogoutTarget)
  }

  /**
   * An authenticated call whose refusal becomes `Error(failure)`, then
   * `res.json()`: the world is the one `fetchWithAuth` leaves, and the result
   * is the body of its final response exactly when that response is 2xx JSON.
   */
  function Call(w: World, url: string, verb: string, body: Option<Json>, failure: string): (out: (World, Result<Json>))
    ensures !Filled(GetItem(w, Api.AccessKey)) ==> out == (w, Err(Api.NotAuthenticated))
    ensures out.0 == FetchWithAuth(w, url, verb, None, body).0
    ensures var r := FetchWithAuth(w, url, verb, None, body).1;
            (out.1.Ok? <==> r.Ok? && r.value.IsOk() && r.value.body.Some?)
            && (out.1.Ok? ==> out.1.value == r.value.body.value)
            && (r.Ok? && !r.value.IsOk() ==> out.1 == Err(Error(failure, None)))
            && (r.Err? ==> out.1 == Err(r.error))
  {
    var (w1, r) := FetchWithAuth(w, url, verb, None, body);
    (w1, Api.AfterAuth(r, failure))
  }

  /** A refused authenticated call (the server answered, the answer is not ok) fails with `failure`. */
  predicate RefusedWith(w: World, url: string, verb: string, body: Option<Json>, out: Result<Json>, failure: string)
  {
    var r := FetchWithAuth(w, url, verb, None, body).1;
    r.Ok? && !r.value.IsOk() ==> out == Err(Error(failure, None))
  }

  /** `fetchUserProfile()` */
  function FetchUserProfile(w: World): (out: (World, Result<Json>))
    ensures !Filled(GetItem(w, Api.AccessKey)) ==> out == (w, Err(Api.NotAuthenticated))
    ensures RefusedWith(w, Api.MeRequest(BaseUrl).url, "GET", None, out.1, "Failed to fetch user profile")
    ensures out.1.Ok? ==>
              var r := FetchWithAuth(w, Api.MeRequest(BaseUrl).url, "GET", None, None).1;
              r.Ok? && r.value.IsOk()
  {
    Call(w, Api.MeRequest(BaseUrl).url, "GET", None, "Failed to fetch user profile")
  }

  function ChangePasswordBody(oldPassword: string, newPassword: string): Json
  {
    JObj(map["old_password" := JStr(oldPassword), "new_password" := JStr(newPassword)])
  }

  /** `changePassword(old, new)`: POST /api/auth/password/change/ with the two passwords only. */
  function ChangePassword(w: World, oldPassword: string, newPassword: string): (out: (World, Result<Json>))
    ensures !Filled(GetItem(w, Api.AccessKey)) ==> out == (w, Err(Api.NotAuthenticated))
    ensures Filled(GetItem(w, Api.AccessKey)) ==>
              |out.0.sent| > |w.sent|
              && out.0.sent[|w.sent|].body == Some(ChangePasswordBody(oldPassword, newPassword))
              && out.0.sent[|w.sent|].url == BaseUrl + "/api/auth/password/change/"
              && out.0.sent[|w.sent|].verb == "POST"
    ensures RefusedWith(w, BaseUrl + "/api/auth/password/change/", "POST", Some(ChangePasswordBody(oldPassword, newPassword)),
                        out.1, "Password change failed")
  {
    Call(w, BaseUrl + "/api/auth/password/change/", "POST", Some(ChangePasswordBody(oldPassword, newPassword)),
         "Password change failed")
  }

  /** `getUsers()` */
  function GetUsers(w: World): (out: (World, Result<Json>))
    ensures !Filled(GetItem(w, Api.AccessKey)) ==> out == (w, Err(Api.NotAuthenticated))
    ensures Filled(GetItem(w, Api.AccessKey)) ==> |out.0.sent| > |w.sent| && out.0.sent[|w.sent|].url == BaseUrl + "/api/users/"
    ensures RefusedWith(w, BaseUrl + "/api/users/", "GET", None, out.1, "Failed to fetch users")
  {
    Call(w, BaseUrl + "/api/users/", "GET", None, "Failed to fetch users")
  }

  /** `/api/users/${userId}/` */
  function UserUrl(userId: Option<Json>): string
  {
    BaseUrl + "/api/users/" + JsString(userId) + "/"
  }

  /** `getUserById(userId)`: the failure message names the id. */
  function GetUserById(w: World, userId: Option<Json>): (out: (World, Result<Json>))
    ensures !Filled(GetItem(w, Api.AccessKey)) ==> out == (w, Err(Api.NotAuthenticated))
    ensures Filled(GetItem(w, Api.AccessKey)) ==> |out.0.sent| > |w.sent| && out.0.sent[|w.sent|].url == UserUrl(userId) && out.0.sent[|w.sent|].verb == "GET"
    ensures RefusedWith(w, UserUrl(userId), "GET", None, out.1, "Failed to fetch user " + JsString(userId))
  {
    Call(w, UserUrl(userId), "GET", None, "Failed to fetch user " + JsString(userId))
  }

  /** `updateUserProfile(userId, data)`: a PUT of the whole object. */
  function UpdateUserProfile(w: World, userId: Option<Json>, data: Json): (out: (World, Result<Json>))
    ensures !Filled(GetItem(w, Api.AccessKey)) ==> out == (w, Err(Api.NotAuthenticated))
    ensures Filled(GetItem(w, Api.AccessKey)) ==>
              |out.0.sent| > |w.sent| && out.0.sent[|w.sent|].url == UserUrl(userId) && out.0.sent[|w.sent|].verb == "PUT"
              && out.0.sent[|w.sent|].body == Some(data)
    ensures RefusedWith(w, UserUrl(userId), "PUT", Some(data), out.1, "Failed to update profile")
  {
    Call(w, UserUrl(userId), "PUT", Some(data), "Failed to update profile")
  }

  /** `deleteUser(userId)` */
  function DeleteUser(w: World, userId: Option<Json>): (out: (World, Result<Json>))
    ensures !Filled(GetItem(w, Api.AccessKey)) ==> out == (w, Err(Api.NotAuthenticated))
    ensures Filled(GetItem(w, Api.AccessKey)) ==> |out.0.sent| > |w.sent| && out.0.sent[|w.sent|].url == UserUrl(userId) && out.0.sent[|w.sent|].verb == "DELETE"
    ensures RefusedWith(w, UserUrl(userId), "DELETE", None, out.1, "Failed to delete user " + JsString(userId))
  {
    Call(w, UserUrl(userId), "DELETE", None, "Failed to delete user " + JsString(userId))
  }
}

/** The operations of `UserApi` run against a window, through the same token machinery as `ApiClient`. */
module UserApiClient {
  import opened Js
  import opened Browser
  import Api
  import ApiClient
  import opened UserApi

  class Client {
    const core: ApiClient.Client

    constructor (core: ApiClient.Client)
      ensures this.core == core
    {
      this.core := core;
    }

    method FetchWithAuth(url: string, verb: string, headers: Option<map<string, string>>, body: Option<Json>)
      returns (r: Result<Response>)
      modifies core.win
      ensures (core.win.State(), r) == UserApi.FetchWithAuth(old(core.win.State()), url, verb, headers, body)
    {
      var token := GetItem(core.win.State(), Api.AccessKey);
      if !Filled(token) {
        return Err(Api.NotAuthenticated);
      }
      r := core.WithRetry(BaseUrl, token.value, Prototype(url, verb, headers, body));
    }

    method Login(email: string, password: string) returns (r: Result<Json>)
      modifies core.win
      ensures (core.win.State(), r) == UserApi.Login(old(core.win.State()), email, password)
    {
      r := core.Login(BaseUrl, email, password);
    }

    method RefreshAccessToken() returns (r: Result<Option<Json>>)
      modifies core.win
      ensures (core.win.State(), r) == UserApi.RefreshAccessToken(old(core.win.State()))
    {
      r := core.RefreshAccessToken(BaseUrl);
    }

    method Logout()
      modifies core.win
      ensures core.win.State() == UserApi.Logout(old(core.win.State()))
    {
      core.Logout(LogoutTarget);
    }

    method Call(url: string, verb: string, body: Option<Json>, failure: string) returns (r: Result<Json>)
      modifies core.win
      ensures (core.win.State(), r) == UserApi.Call(old(core.win.State()), url, verb, body, failure)
    {
      var res := FetchWithAuth(url, verb, None, body);
      r := Api.AfterAuth(res, failure);
    }

    method FetchUserProfile() returns (r: Result<Json>)
      modifies core.win
      ensures (core.win.State(), r) == UserApi.FetchUserProfile(old(core.win.State()))
    {
      r := Call(Api.MeRequest(BaseUrl).url, "GET", None, "Failed to fetch user profile");
    }

    method ChangePassword(oldPassword: string, newPassword: string) returns (r: Result<Json>)
      modifies core.win
      ensures (core.win.State(), r) == UserApi.ChangePassword(old(core.win.State()), oldPassword, newPassword)
    {
      r := Call(BaseUrl + "/api/auth/password/change/", "POST", Some(ChangePasswordBody(oldPassword, newPassword)),
                "Password change failed");
    }

    method GetUsers() returns (r: Result<Json>)
      modifies core.win
      ensures (core.win.State(), r) == UserApi.GetUsers(old(core.win.State()))
    {
      r := Call(BaseUrl + "/api/users/", "GET", None, "Failed to fetch users");
    }

    method GetUserById(userId: Option<Json>) returns (r: Result<Json>)
      modifies core.win
      ensures (core.win.State(), r) == UserApi.GetUserById(old(core.win.State()), userId)
    {
      r := Call(UserUrl(userId), "GET", None, "Failed to fetch user " + JsString(userId));
    }

    method UpdateUserProfile(userId: Option<Json>, data: Json) returns (r: Result<Json>)
      modifies core.win
      ensures (core.win.State(), r) == UserApi.UpdateUserProfile(old(core.win.State()), userId, data)
    {
      r := Call(UserUrl(userId), "PUT", Some(data), "Failed to update profile");
    }

    method DeleteUser(userId: Option<Json>) returns (r: Result<Json>)
      modifies core.win
      ensures (core.win.State(), r) == UserApi.DeleteUser(old(core.win.State()), userId)
    {
      r := Call(UserUrl(userId), "DELETE", None, "Failed to delete user " + JsString(userId));
    }
  }
}
