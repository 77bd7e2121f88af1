/**
 * The login form (`front/src/components/forms/login-form.jsx`): its schema,
 * the notice shown after a logout, and what a login attempt does. It logs in
 * through the user client (`front/src/lib/userApi.js`).
 */
module LoginForm {
  import opened Js
  import opened Browser
  import opened Validators
  import Api
  import UserApi
  import UserApiClient

  const LoggedOut := "Déconnexion réussie !"
  const LoggedIn := "Connexion réussie !"
  const LoginFallback := "Identifiants invalides."

  /** `loginSchema`: an e-mail and a password of at least 8 characters. */
  function Issues(email: Option<string>, password: Option<string>, isEmail: string -> bool): (r: seq<Issue>)
    ensures r == [] <==> email.Some? && isEmail(email.value) && password.Some? && |password.value| >= 8
  {
    EmailIssues("email", email, isEmail, "Invalid email format")
    + MinIssues("password", password, 8, "Password must be at least 8 characters long")
  }

  /**
   * The effect on the `origin` search parameter: after a logout the page
   * says so and drops the parameter by replacing the URL with `/login`; any
   * other value, or none, does nothing.
   */
  function OriginEffect(w: World, origin: Option<string>): (out: World)
    ensures origin == Some("logout") ==> out.toasts == w.toasts + [Success(LoggedOut)] && out.nav == w.nav + [Replace("/login")]
    ensures origin != Some("logout") ==> out == w
    ensures out.storage == w.storage && out.sent == w.sent
  {
    if origin == Some("logout") then Navigate(ShowToast(w, Success(LoggedOut)), Replace("/login")) else w
  }

  /**
   * `onSubmit` with values the schema accepted: a login request; success
   * announces it and goes to the home page, failure shows the error's
   * message (or the fallback) and stays.
   */
  function SubmitEffect(w: World, email: string, password: string): (out: World)
    ensures out.sent == w.sent + [Api.LoginRequest(UserApi.BaseUrl, email, password)]
    ensures |out.toasts| == |w.toasts| + 1 && out.toasts[..|w.toasts|] == w.toasts
    ensures UserApi.Login(w, email, password).1.Ok? ==>
              out.toasts[|w.toasts|] == Success(LoggedIn) && out.nav == w.nav + [Push("/")]
    ensures UserApi.Login(w, email, password).1.Err? ==>
              out.toasts[|w.toasts|].Failure? && out.nav == w.nav && out.storage == w.storage
    ensures var (w1, r) := UserApi.Login(w, email, password);
            (r.Ok? ==> out == Navigate(ShowToast(w1, Success(LoggedIn)), Push("/"))
                       && out.storage == w.storage[Api.AccessKey := JsString(Member(r.value, "access"))]
                                                  [Api.RefreshKey := JsString(Member(r.value, "refresh"))])
            && (r.Err? ==> out == ShowToast(w1, Failure(if r.error.message != "" then r.error.message else LoginFallback)))
  {
    var (w1, r) := UserApi.Login(w, email, password);
    match r
    case Ok(_) => Navigate(ShowToast(w1, Success(LoggedIn)), Push("/"))
    case Err(e) => ShowToast(w1, Failure(if e.message != "" then e.message else LoginFallback))
  }

  /** A refused login whose body carries no message shows the client's own default, not the form's fallback. */
  lemma RefusedLoginMessage(w: World, email: string, password: string)
    requires Api.NextReply(w).Answer? && !Api.NextReply(w).response.IsOk()
    requires Api.NextReply(w).response.body == Some(JObj(map[]))
    ensures SubmitEffect(w, email, password).toasts[|w.toasts|] == Failure("Login failed")
  {
  }

  class Form {
    const client: UserApiClient.Client
    var loading: bool

    constructor (client: UserApiClient.Client)
      ensures this.client == client && !loading
    {
      this.client := client;
      loading := false;
    }

    /** The mount effect. */
    method OnOrigin(origin: Option<string>)
      modifies client.core.win
      ensures client.core.win.State() == OriginEffect(old(client.core.win.State()), origin)
    {
      if origin == Some("logout") {
        client.core.win.Notify(Success(LoggedOut));
        client.core.win.Go(Replace("/login"));
      }
    }

    method Submit(email: Option<string>, password: Option<string>, isEmail: string -> bool) returns (issues: seq<Issue>)
      modifies this, client.core.win
      ensures issues == Issues(email, password, isEmail)
      ensures issues != [] ==> loading == old(loading) && client.core.win.State() == old(client.core.win.State())
      ensures issues == [] ==>
                email.Some? && password.Some? && !loading
                && client.core.win.State() == SubmitEffect(old(client.core.win.State()), email.value, password.value)
    {
      issues := Issues(email, password, isEmail);
      if issues != [] {
        return;
      }
      loading := true;
      var r := client.Login(email.value, password.value);
      if r.Ok? {
        client.core.win.Notify(Success(LoggedIn));
        client.core.win.Go(Push("/"));
      } else {
        client.core.win.Notify(Failure(if r.error.message != "" then r.error.message else LoginFallback));
      }
      loading := false;
    }
  }
}
