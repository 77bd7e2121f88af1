/**
 * The authentication context (`front/src/context/AuthContext.js`): token
 * validity, the start-up effect of the provider, and `refreshAuth`.
 *
 * `jwtDecode` is a parameter: it maps a token string to its payload, or to
 * `None` when it throws. The clock is a parameter `nowMs` (`Date.now()`).
 */
module AuthContext {
  import opened Js
  import opened Browser
  import Api
  import ApiClient

  type Decoder = string -> Option<Json>

  /**
   * `decoded.exp > Date.now() / 1000`: `exp` coerced to a number as `>` does
   * (a numeric string or a one-element array counts, NaN never does),
   * compared with the clock in seconds, written without division.
   */
  predicate NotExpired(exp: Option<Json>, nowMs: int)
  {
    var n := ToNumber(exp);
    n.Some? && n.value * 1000 > nowMs
  }

  /** A string `exp` of decimal digits is compared by its value, an empty array reads as 0, an object never counts. */
  lemma CoercedExpiry(digits: string, nowMs: int)
    requires digits != [] && AllDigits(digits)
    ensures NotExpired(Some(JStr(digits)), nowMs) <==> nowMs < DigitsValue(digits) * 1000
    ensures NotExpired(Some(JArr([])), nowMs) <==> nowMs < 0
    ensures !NotExpired(Some(JObj(map[])), nowMs)
  {
    assert IsDigitChar(digits[0]) && IsDigitChar(digits[|digits| - 1]);
    TrimUnchanged(digits);
  }

  /**
   * `isAuthenticated(token)`: an empty or missing token is not valid, a token
   * that does not decode (or decodes to `null`) is not valid, otherwise its
   * `exp` decides.
   */
  predicate IsAuthenticated(token: Option<string>, nowMs: int, decode: Decoder)
  {
    Filled(token) && decode(token.value).Some? && decode(token.value).value != JNull
    && NotExpired(Member(decode(token.value).value, "exp"), nowMs)
  }

  /** A token that is valid now was valid at every earlier instant. */
  lemma ValidEarlier(token: Option<string>, nowMs: int, earlier: int, decode: Decoder)
    requires IsAuthenticated(token, nowMs, decode) && earlier <= nowMs
    ensures IsAuthenticated(token, earlier, decode)
  {
  }

  /** A token whose `exp` is a number of seconds is valid exactly until that second. */
  lemma ExpiresAt(token: string, exp: int, nowMs: int, decode: Decoder)
    requires token != "" && decode(token).Some? && decode(token).value.JObj?
    requires Member(decode(token).value, "exp") == Some(JNum(exp))
    ensures IsAuthenticated(Some(token), nowMs, decode) <==> nowMs < exp * 1000
  {
  }

  /** The React state of the provider: `accessToken` and `user` (`None` is `undefined`). */
  datatype Session = Session(accessToken: Option<Json>, user: Option<Json>)

  const SignedOut := Session(Some(JNull), Some(JNull))

  /** The paths the start-up effect lets a visitor without a token stay on. */
  const PublicPaths := ["/", "/login", "/register", "/reset-password", "/reset-password/confirm"]

  const LoginPath := "/login"

  /**
   * The provider's start-up effect: a valid stored token opens the session;
   * an invalid one is removed and the visitor sent to /login; without any
   * token only the public paths can be stayed on.
   */
  function StartupEffect(s: Session, w: World, pathname: string, nowMs: int, decode: Decoder): (out: (Session, World))
    ensures IsAuthenticated(GetItem(w, Api.AccessKey), nowMs, decode) ==>
              out.1 == w && out.0 == Session(Some(JStr(w.storage[Api.AccessKey])), decode(w.storage[Api.AccessKey]))
    ensures Filled(GetItem(w, Api.AccessKey)) && !IsAuthenticated(GetItem(w, Api.AccessKey), nowMs, decode) ==>
              out.0 == s && out.1 == Navigate(RemoveItem(w, Api.AccessKey), Replace(LoginPath))
    ensures !Filled(GetItem(w, Api.AccessKey)) ==>
              out.0 == s && out.1 == (if pathname in PublicPaths then w else Navigate(w, Replace(LoginPath)))
    ensures out.1.sent == w.sent && out.1.toasts == w.toasts
  {
    var stored := GetItem(w, Api.AccessKey);
    if Filled(stored) then
      if IsAuthenticated(stored, nowMs, decode) then
        (Session(Some(JStr(stored.value)), decode(stored.value)), w)
      else
        (s, Navigate(RemoveItem(w, Api.AccessKey), Replace(LoginPath)))
    else if pathname !in PublicPaths then (s, Navigate(w, Replace(LoginPath)))
    else (s, w)
  }

  /** After start-up, the session holds a token only if the stored token was valid and is still stored. */
  lemma StartupOpensOnlyValid(s: Session, w: World, pathname: string, nowMs: int, decode: Decoder)
    requires s == SignedOut
    ensures var (s', w') := StartupEffect(s, w, pathname, nowMs, decode);
            Truthy(s'.accessToken) ==>
              IsAuthenticated(GetItem(w', Api.AccessKey), nowMs, decode) && s'.accessToken == Some(JStr(w'.storage[Api.AccessKey]))
  {
  }

  /** `jwtDecode(v)` on a JavaScript value: only a string can decode. */
  function DecodeValue(v: Option<Json>, decode: Decoder): Option<Json>
  {
    if v.Some? && v.value.JStr? then decode(v.value.s) else None
  }

  /**
   * `refreshAuth()` as written. `refreshAccessToken` resolves to the token
   * itself, but the code reads `.access` of it: on a successful refresh of a
   * string token the storage gets "undefined", the session's token becomes
   * undefined, and `jwtDecode(undefined)` throws, which sends the user to /login.
   */
  function RefreshAuthEffect(s: Session, w: World, decode: Decoder): (out: (Session, World))
    ensures !Filled(GetItem(w, Api.RefreshKey)) ==> out == (s, Navigate(w, Replace(LoginPath)))
    ensures var (w1, r) := Api.RefreshAccessToken(w, Api.BaseUrl);
            Filled(GetItem(w, Api.RefreshKey)) && r.Ok? && r.value.Some? && r.value.value.JStr? ==>
              out.1 == Navigate(SetItem(w1, Api.AccessKey, "undefined"), Replace(LoginPath))
              && out.0 == s.(accessToken := None)
    ensures var (w1, r) := Api.RefreshAccessToken(w, Api.BaseUrl);
            Filled(GetItem(w, Api.RefreshKey)) && r.Err? ==> out == (s, Navigate(w1, Replace(LoginPath)))
    ensures out.0.user == s.user || out.0.user == DecodeValue(out.0.accessToken, decode)
  {
    if !Filled(GetItem(w, Api.RefreshKey)) then (s, Navigate(w, Replace(LoginPath)))
    else
      var (w1, r) := Api.RefreshAccessToken(w, Api.BaseUrl);
      match r
      case Err(_) => (s, Navigate(w1, Replace(LoginPath)))
      case Ok(data) =>
        if data.None? || data.value == JNull then (s, Navigate(w1, Replace(LoginPath)))
        else
          var access := Member(data.value, "access");
          var w2 := SetItem(w1, Api.AccessKey, JsString(access));
          var s1 := s.(accessToken := access);
          var decoded := DecodeValue(access, decode);
          if decoded.None? then (s1, Navigate(w2, Replace(LoginPath)))
          else (s1.(user := decoded), w2)
  }

  /** A world with a refresh token whose refresh call succeeds with an ordinary token. */
  function RefreshableWorld(): World
  {
    World(map[Api.RefreshKey := "r1"], [],
          [Answer(Response(200, Some(JObj(map["access" := JStr("a2")]))))], [], [])
  }

  /** As written, a successful refresh stores the text "undefined" and still ends on /login. */
  lemma RefreshAuthLosesToken(decode: Decoder)
    ensures var (s', w') := RefreshAuthEffect(SignedOut, RefreshableWorld(), decode);
            w'.storage[Api.AccessKey] == "undefined" && w'.nav == [Replace(LoginPath)] && s'.accessToken == None
  {
    var w := RefreshableWorld();
    var (w1, r) := Api.RefreshAccessToken(w, Api.BaseUrl);
    assert r == Ok(Some(JStr("a2")));
  }

  /**
   * `refreshAuth()` as intended: the value `refreshAccessToken` resolves to is
   * the new token; it becomes the session's token and its payload the user.
   */
  function RefreshAuthIntendedEffect(s: Session, w: World, decode: Decoder): (out: (Session, World))
    ensures !Filled(GetItem(w, Api.RefreshKey)) ==> out == (s, Navigate(w, Replace(LoginPath)))
    ensures var (w1, r) := Api.RefreshAccessToken(w, Api.BaseUrl);
            Filled(GetItem(w, Api.RefreshKey)) && r.Ok? && r.value.Some? && r.value.value.JStr?
            && decode(r.value.value.s).Some? ==>
              out.1 == w1 && out.0 == Session(r.value, decode(r.value.value.s))
              && w1.storage[Api.AccessKey] == r.value.value.s
    ensures var (w1, r) := Api.RefreshAccessToken(w, Api.BaseUrl);
            Filled(GetItem(w, Api.RefreshKey)) && r.Err? ==> out == (s, Navigate(w1, Replace(LoginPath)))
  {
    if !Filled(GetItem(w, Api.RefreshKey)) then (s, Navigate(w, Replace(LoginPath)))
    else
      var (w1, r) := Api.RefreshAccessToken(w, Api.BaseUrl);
      match r
      case Err(_) => (s, Navigate(w1, Replace(LoginPath)))
      case Ok(token) =>
        var decoded := DecodeValue(token, decode);
        if decoded.None? then (s.(accessToken := token), Navigate(w1, Replace(LoginPath)))
        else (Session(token, decoded), w1)
  }

  /** With the intended reading, the same refresh keeps the new token and stays on the page. */
  lemma RefreshAuthIntendedKeepsToken(decode: Decoder)
    requires decode("a2").Some?
    ensures var (s', w') := RefreshAuthIntendedEffect(SignedOut, RefreshableWorld(), decode);
            w'.storage[Api.AccessKey] == "a2" && w'.nav == [] && s' == Session(Some(JStr("a2")), decode("a2"))
  {
    var w := RefreshableWorld();
    var (w1, r) := Api.RefreshAccessToken(w, Api.BaseUrl);
    assert r == Ok(Some(JStr("a2")));
  }

  /** The provider's state, updated in place by its effect and by `refreshAuth`. */
  class AuthProvider {
    var accessToken: Option<Json>
    var user: Option<Json>

    function Current(): Session
      reads this
    {
      Session(accessToken, user)
    }

    constructor ()
      ensures Current() == SignedOut
    {
      accessToken := Some(JNull);
      user := Some(JNull);
    }

    method Startup(win: Window, pathname: string, nowMs: int, decode: Decoder)
      modifies this, win
      ensures (Current(), win.State()) == StartupEffect(old(Current()), old(win.State()), pathname, nowMs, decode)
    {
      var stored := GetItem(win.State(), Api.AccessKey);
      if Filled(stored) {
        if IsAuthenticated(stored, nowMs, decode) {
          accessToken := Some(JStr(stored.value));
          user := decode(stored.value);
        } else {
          win.RemoveStorage(Api.AccessKey);
          win.Go(Replace(LoginPath));
        }
      } else if pathname !in PublicPaths {
        win.Go(Replace(LoginPath));
      }
    }

    method RefreshAuth(api: ApiClient.Client, decode: Decoder)
      modifies this, api.win
      ensures (Current(), api.win.State()) == RefreshAuthEffect(old(Current()), old(api.win.State()), decode)
    {
      if !Filled(GetItem(api.win.State(), Api.RefreshKey)) {
        api.win.Go(Replace(LoginPath));
        return;
      }
      var r := api.RefreshAccessToken(Api.BaseUrl);
      if r.Err? || r.value.None? || r.value.value == JNull {
        api.win.Go(Replace(LoginPath));
        return;
      }
      var access := Member(r.value.value, "access");
      api.win.SetStorage(Api.AccessKey, JsString(access));
      accessToken := access;
      var decoded := DecodeValue(access, decode);
      if decoded.None? {
        api.win.Go(Replace(LoginPath));
      } else {
        user := decoded;
      }
    }

    method RefreshAuthIntended(api: ApiClient.Client, decode: Decoder)
      modifies this, api.win
      ensures (Current(), api.win.State()) == RefreshAuthIntendedEffect(old(Current()), old(api.win.State()), decode)
    {
      if !Filled(GetItem(api.win.State(), Api.RefreshKey)) {
        api.win.Go(Replace(LoginPath));
        return;
      }
      var r := api.RefreshAccessToken(Api.BaseUrl);
      if r.Err? {
        api.win.Go(Replace(LoginPath));
        return;
      }
      var decoded := DecodeValue(r.value, decode);
      accessToken := r.value;
      if decoded.None? {
        api.win.Go(Replace(LoginPath));
      } else {
        user := decoded;
      }
    }
  }
}
