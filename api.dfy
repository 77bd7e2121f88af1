/**
 * The main client of the REST back end (`front/src/lib/api.js`): the public
 * auth endpoints, the athlete listings, and the token lifecycle (login,
 * refresh, logout, and the authenticated calls that retry once after a 401).
 *
 * Each operation is a function from the world before the call to the world
 * after it and the call's result; `Client` runs the same operations against a
 * `Window`, step by step, and is proved to end in that world with that result.
 * The token machinery is written once with the base URL as a parameter, since
 * `userApi.js` repeats it against another server.
 */
module Api {
  import opened Js
  import opened Browser

  const BaseUrl := "http://127.0.0.1:8001"

  /** Storage keys of the two tokens. */
  const AccessKey := "accessToken"
  const RefreshKey := "refreshToken"

  function JsonHeaders(): map<string, string>
  {
    map["Content-Type" := "application/json"]
  }

  function Bearer(token: string): string
  {
    "Bearer " + token
  }

  function PostJson(url: string, body: Option<Json>): Request
  {
    Request(url, "POST", JsonHeaders(), body)
  }

  /** `proto` with `Authorization: Bearer <token>` set in its headers. */
  function Authorize(proto: Request, token: string): Request
  {
    proto.(headers := proto.headers["Authorization" := Bearer(token)])
  }

  /** The reply the next `fetch` will get. */
  function NextReply(w: World): Reply
  {
    if w.replies == [] then NetworkError else w.replies[0]
  }

  predicate Is401(r: Reply)
  {
    r.Answer? && r.response.status == 401
  }

  /** The next reply is a response that `res.ok` accepts and whose body is JSON. */
  predicate NextIsOkJson(w: World)
  {
    NextReply(w).Answer? && NextReply(w).response.IsOk() && NextReply(w).response.body.Some?
  }

  /** Only the request log and the reply script moved: storage, navigation and toasts are as before. */
  predicate OnlyNetwork(w: World, w': World)
  {
    w'.storage == w.storage && w'.nav == w.nav && w'.toasts == w.toasts
  }

  /** `new Error(data[key] || fallback).message` for a non-null `data`. */
  function MessageOr(data: Json, key: string, fallback: string): string
  {
    JsString(Some(Or(Member(data, key), JStr(fallback))))
  }

  /** `fetch`, then `throw new Error(failure)` unless `res.ok`, then `res.json()`. */
  function Expect(w: World, req: Request, failure: string): (out: (World, Result<Json>))
    ensures out.0 == Send(w, req).0
    ensures out.1.Ok? <==> NextIsOkJson(w)
    ensures out.1.Ok? ==> out.1.value == NextReply(w).response.body.value
    ensures NextReply(w).Answer? && !NextReply(w).response.IsOk() ==> out.1 == Err(Error(failure, None))
  {
    var (w1, reply) := Send(w, req);
    match reply
    case NetworkError => (w1, Err(NetworkFailure))
    case Answer(res) =>
      if !res.IsOk() then (w1, Err(Error(failure, None))) else (w1, ParseBody(res))
  }

  // -------------------------------------------------------------------
  // Public auth endpoints

  function ResetPasswordRequest(email: string): Request
  {
    PostJson(BaseUrl + "/api/auth/reset-password/", Some(JObj(map["email" := JStr(email)])))
  }

  /** `resetPassword(email)`: one POST; a refused request becomes "Reset password request failed". */
  function ResetPassword(w: World, email: string): (out: (World, Result<Json>))
    ensures out.0.sent == w.sent + [ResetPasswordRequest(email)]
    ensures OnlyNetwork(w, out.0)
    ensures out.1.Ok? <==> NextIsOkJson(w)
    ensures NextReply(w).Answer? && !NextReply(w).response.IsOk() ==>
              out.1 == Err(Error("Reset password request failed", None))
  {
    Expect(w, ResetPasswordRequest(email), "Reset password request failed")
  }

  function ConfirmResetRequest(token: string, newPassword: string): Request
  {
    PostJson(BaseUrl + "/api/auth/reset-password/confirm/",
             Some(JObj(map["token" := JStr(token), "new_password" := JStr(newPassword)])))
  }

  /** `confirmPasswordReset(token, newPassword)` */
  function ConfirmPasswordReset(w: World, token: string, newPassword: string): (out: (World, Result<Json>))
    ensures out.0.sent == w.sent + [ConfirmResetRequest(token, newPassword)]
    ensures OnlyNetwork(w, out.0)
    ensures out.1.Ok? <==> NextIsOkJson(w)
    ensures NextReply(w).Answer? && !NextReply(w).response.IsOk() ==>
              out.1 == Err(Error("Password reset confirmation failed", None))
  {
    Expect(w, ConfirmResetRequest(token, newPassword), "Password reset confirmation failed")
  }

  function RegisterRequest(userData: map<string, Json>): Request
  {
    PostJson(BaseUrl + "/api/auth/register/", Some(JObj(userData)))
  }

  /**
   * `registerUser(userData)`: on a refused request the error body is parsed
   * without a guard, and its `message` (or "Registration failed") is thrown.
   */
  function RegisterUser(w: World, userData: map<string, Json>): (out: (World, Result<Json>))
    ensures out.0.sent == w.sent + [RegisterRequest(userData)]
    ensures OnlyNetwork(w, out.0)
    ensures out.1.Ok? <==> NextIsOkJson(w)
    ensures NextReply(w).Answer? && !NextReply(w).response.IsOk() ==>
              var body := NextReply(w).response.body;
              out.1 == (if body.None? then Err(ParseFailure)
                        else if body.value == JNull then Err(TypeFailure)
                        else Err(Error(MessageOr(body.value, "message", "Registration failed"), None)))
  {
    var (w1, reply) := Send(w, RegisterRequest(userData));
    match reply
    case NetworkError => (w1, Err(NetworkFailure))
    case Answer(res) =>
      if res.IsOk() then (w1, ParseBody(res))
      else
        match ParseBody(res)
        case Err(e) => (w1, Err(e))
        case Ok(errorData) =>
          if errorData == JNull then (w1, Err(TypeFailure))
          else (w1, Err(Error(MessageOr(errorData, "message", "Registration failed"), None)))
  }

  function VerifyEmailRequest(token: string): Request
  {
    PostJson(BaseUrl + "/api/auth/verify-email/", Some(JObj(map["token" := JStr(token)])))
  }

  /**
   * `verifyEmail(token)`: a body that is not JSON reads as `{}`; a refused
   * request throws `data.error` (or the French default) carrying the HTTP status.
   */
  function VerifyEmail(w: World, token: string): (out: (World, Result<Json>))
    ensures out.0.sent == w.sent + [VerifyEmailRequest(token)]
    ensures OnlyNetwork(w, out.0)
    ensures out.1.Ok? <==> NextReply(w).Answer? && NextReply(w).response.IsOk()
    ensures out.1.Ok? && NextReply(w).response.body.None? ==> out.1.value == JObj(map[])
    ensures out.1.Ok? && NextReply(w).response.body.Some? ==> out.1.value == NextReply(w).response.body.value
    ensures out.1.Err? && NextReply(w).Answer? && NextReply(w).response.body != Some(JNull) ==>
              out.1.error.status == Some(NextReply(w).response.status)
    ensures NextReply(w).Answer? && !NextReply(w).response.IsOk() && NextReply(w).response.body.None? ==>
              out.1 == Err(Error("Échec de la vérification.", Some(NextReply(w).response.status)))
    ensures NextReply(w).Answer? && !NextReply(w).response.IsOk() && NextReply(w).response.body.Some?
              && NextReply(w).response.body.value != JNull ==>
              out.1 == Err(Error(MessageOr(NextReply(w).response.body.value, "error", "Échec de la vérification."),
                                 Some(NextReply(w).response.status)))
    ensures NextReply(w).Answer? && !NextReply(w).response.IsOk() && NextReply(w).response.body == Some(JNull) ==>
              out.1 == Err(TypeFailure)
    ensures NextReply(w).NetworkError? ==> out.1 == Err(NetworkFailure)
  {
    var (w1, reply) := Send(w, VerifyEmailRequest(token));
    match reply
    case NetworkError => (w1, Err(NetworkFailure))
    case Answer(res) =>
      var data := if res.body.Some? then res.body.value else JObj(map[]);
      if res.IsOk() then (w1, Ok(data))
      else if data == JNull then (w1, Err(TypeFailure))
      else (w1, Err(Error(MessageOr(data, "error", "Échec de la vérification."), Some(res.status))))
  }

  function RequestResetRequest(email: string): Request
  {
    PostJson(BaseUrl + "/api/auth/password/reset/", Some(JObj(map["email" := JStr(email)])))
  }

  /** `requestPasswordReset(email)` */
  function RequestPasswordReset(w: World, email: string): (out: (World, Result<Json>))
    ensures out.0.sent == w.sent + [RequestResetRequest(email)]
    ensures OnlyNetwork(w, out.0)
    ensures out.1.Ok? <==> NextIsOkJson(w)
    ensures NextReply(w).Answer? && !NextReply(w).response.IsOk() ==>
              out.1 == Err(Error("Password reset request failed", None))
  {
    Expect(w, RequestResetRequest(email), "Password reset request failed")
  }

  // -------------------------------------------------------------------
  // Athlete listings

  /** `withAuthIfAvailable()`: a bearer header exactly when an access token is stored. */
  function WithAuthIfAvailable(storage: map<string, string>): (h: map<string, string>)
    ensures h.Keys <= {"Authorization"}
    ensures "Authorization" in h <==> AccessKey in storage && storage[AccessKey] != ""
    ensures "Authorization" in h ==> h["Authorization"] == Bearer(storage[AccessKey])
  {
    if AccessKey in storage && storage[AccessKey] != "" then map["Authorization" := Bearer(storage[AccessKey])]
    else map[]
  }

  function AthletesRequest(storage: map<string, string>): Request
  {
    Request(BaseUrl + "/api/athletes/", "GET", WithAuthIfAvailable(storage), None)
  }

  /** The shape choice of `getAthletes`: an array as it is, else `data.results || []`. */
  function AthleteList(data: Json): (r: Result<Json>)
    ensures data.JArr? ==> r == Ok(data)
    ensures data == JNull ==> r.Err?
    ensures r.Ok? && !data.JArr? ==> Truthy(Some(r.value)) && (r.value == JArr([]) || Member(data, "results") == Some(r.value))
    ensures !data.JArr? && data != JNull && Truthy(Member(data, "results")) ==> r == Ok(Member(data, "results").value)
    ensures !data.JArr? && data != JNull && !Truthy(Member(data, "results")) ==> r == Ok(JArr([]))
  {
    if data.JArr? then Ok(data)
    else if data == JNull then Err(TypeFailure)
    else Ok(Or(Member(data, "results"), JArr([])))
  }

  /** `getAthletes()`: one GET, authenticated when a token is stored. */
  function GetAthletes(w: World): (out: (World, Result<Json>))
    ensures out.0.sent == w.sent + [AthletesRequest(w.storage)]
    ensures OnlyNetwork(w, out.0)
    ensures out.1.Ok? ==> NextIsOkJson(w) && AthleteList(NextReply(w).response.body.value) == out.1
    ensures NextIsOkJson(w) ==> out.1 == AthleteList(NextReply(w).response.body.value)
    ensures NextReply(w).Answer? && NextReply(w).response.IsOk() && NextReply(w).response.body.None? ==>
              out.1 == Err(ParseFailure)
    ensures NextReply(w).NetworkError? ==> out.1 == Err(NetworkFailure)
    ensures NextReply(w).Answer? && !NextReply(w).response.IsOk() ==>
              out.1 == Err(Error("Impossible de charger les athlètes", None))
  {
    var (w1, r) := Expect(w, AthletesRequest(w.storage), "Impossible de charger les athlètes");
    match r
    case Err(e) => (w1, Err(e))
    case Ok(data) => (w1, AthleteList(data))
  }

  predicate HexOrDash(c: char)
  {
    ('0' <= c <= '9') || ('a' <= c <= 'f') || ('A' <= c <= 'F') || c == '-'
  }

  /** `/[0-9a-fA-F-]{36}/.test(s)`: some 36 consecutive characters are hex digits or dashes. */
  predicate IsUuidLike(s: string)
  {
    exists k | 0 <= k <= |s| - 36 :: HexWindow(s, k)
  }

  predicate HexWindow(s: string, k: nat)
    requires k + 36 <= |s|
  {
    forall j | k <= j < k + 36 :: HexOrDash(s[j])
  }

  /** The predicate of the `list.find` in `getAthleteBySlug`. */
  predicate MatchesSlug(a: Json, slug: string)
  {
    Member(a, "profile_url") == Some(JStr("/athletes/" + slug)) || Member(a, "id") == Some(JStr(slug))
  }

  /**
   * `list.find(match) || null`. Evaluating the match on a `null` element
   * (before any hit) throws; a hit is always an object, so `|| null` keeps it.
   */
  function FindAthlete(xs: seq<Json>, slug: string): (r: Result<Json>)
    ensures r.Ok? && r.value != JNull ==>
              exists i :: 0 <= i < |xs| && xs[i] == r.value && MatchesSlug(xs[i], slug)
                && forall j :: 0 <= j < i ==> !MatchesSlug(xs[j], slug)
    ensures r == Ok(JNull) ==> forall j :: 0 <= j < |xs| ==> !MatchesSlug(xs[j], slug)
    ensures r.Err? <==> exists i :: 0 <= i < |xs| && xs[i] == JNull && forall j :: 0 <= j < i ==> !MatchesSlug(xs[j], slug)
    ensures r.Err? ==> r == Err(TypeFailure)
    ensures r.Ok? ==> r.value == JNull || MatchesSlug(r.value, slug)
  {
    if xs == [] then Ok(JNull)
    else if xs[0] == JNull then Err(TypeFailure)
    else if MatchesSlug(xs[0], slug) then Ok(xs[0])
    else
      var r := FindAthlete(xs[1..], slug);
      assert forall j :: 1 <= j < |xs| ==> xs[j] == xs[1..][j - 1];
      r
  }

  function AthleteByIdRequest(storage: map<string, string>, slug: string): Request
  {
    Request(BaseUrl + "/api/athletes/" + slug + "/", "GET", WithAuthIfAvailable(storage), None)
  }

  /** The list fallback of `getAthleteBySlug`. */
  function FindInList(w: World, slug: string): (World, Result<Json>)
  {
    var (w1, r) := GetAthletes(w);
    match r
    case Err(e) => (w1, Err(e))
    case Ok(list) =>
      if list.JArr? then (w1, FindAthlete(list.items, slug))
      else (w1, Err(Error("list.find is not a function", None)))
  }

  /**
   * `getAthleteBySlug(slug)`: an id-shaped slug is fetched directly first; a
   * refused direct fetch (and any other slug) falls back to the full list.
   */
  function GetAthleteBySlug(w: World, slug: string): (out: (World, Result<Json>))
    ensures !IsUuidLike(slug) ==> out == FindInList(w, slug)
    ensures !IsUuidLike(slug) ==> out.0.sent == w.sent + [AthletesRequest(w.storage)]
    ensures IsUuidLike(slug) ==> |out.0.sent| > |w.sent| && out.0.sent[|w.sent|] == AthleteByIdRequest(w.storage, slug)
    ensures IsUuidLike(slug) && NextReply(w).Answer? && NextReply(w).response.IsOk() ==>
              out.0.sent == w.sent + [AthleteByIdRequest(w.storage, slug)]
              && out.1 == ParseBody(NextReply(w).response)
    ensures IsUuidLike(slug) && NextReply(w).Answer? && !NextReply(w).response.IsOk() ==>
              out == FindInList(Send(w, AthleteByIdRequest(w.storage, slug)).0, slug)
    ensures IsUuidLike(slug) && NextReply(w).NetworkError? ==>
              out == (Send(w, AthleteByIdRequest(w.storage, slug)).0, Err(NetworkFailure))
    ensures |out.0.sent| <= |w.sent| + 2
    ensures OnlyNetwork(w, out.0)
  {
    if IsUuidLike(slug) then
      var (w1, reply) := Send(w, AthleteByIdRequest(w.storage, slug));
      match reply
      case NetworkError => (w1, Err(NetworkFailure))
      case Answer(res) =>
        if res.IsOk() then (w1, ParseBody(res)) else FindInList(w1, slug)
    else FindInList(w, slug)
  }

  /** What `getAthletesPage` resolves to. */
  datatype Page = Page(results: Json, next: Json)

  function PageUrl(limit: nat, offset: nat): string
  {
    BaseUrl + "/api/athletes/?limit=" + IntToString(limit) + "&offset=" + IntToString(offset)
  }

  function Min(a: int, b: int): int { if a <= b then a else b }

  /** `data.slice(offset, offset + limit)`, clamped to the length as `slice` does. */
  function Slice(xs: seq<Json>, offset: nat, limit: nat): (r: seq<Json>)
    ensures |r| == Min(limit, if offset <= |xs| then |xs| - offset else 0)
    ensures forall i :: 0 <= i < |r| ==> r[i] == xs[offset + i]
  {
    xs[Min(offset, |xs|)..Min(offset + limit, |xs|)]
  }

  /** The local paging a bare array gets: this window, and `next` only when more remain. */
  function ArrayPage(xs: seq<Json>, limit: nat, offset: nat): (p: Page)
    ensures p.results == JArr(Slice(xs, offset, limit))
    ensures p.next != JNull <==> |xs| > offset + limit
    ensures p.next != JNull ==> p.next == JStr(PageUrl(limit, offset))
  {
    Page(JArr(Slice(xs, offset, limit)), if |xs| > offset + limit then JStr(PageUrl(limit, offset)) else JNull)
  }

  /** The page of a non-array body: `data.results || []` and `data.next || null`. */
  function ServerPage(data: Json): (r: Result<Page>)
    ensures data == JNull ==> r.Err?
    ensures data != JNull ==> r.Ok?
    ensures r.Ok? ==> Truthy(Some(r.value.results)) && (r.value.next == JNull || Truthy(Some(r.value.next)))
    ensures r.Ok? && Truthy(Member(data, "results")) ==> r.value.results == Member(data, "results").value
    ensures r.Ok? && Truthy(Member(data, "next")) ==> r.value.next == Member(data, "next").value
    ensures r.Ok? && !Truthy(Member(data, "results")) ==> r.value.results == JArr([])
    ensures r.Ok? && !Truthy(Member(data, "next")) ==> r.value.next == JNull
  {
    if data == JNull then Err(TypeFailure)
    else Ok(Page(Or(Member(data, "results"), JArr([])), Or(Member(data, "next"), JNull)))
  }

  /** `getAthletesPage(limit, offset)`: one unauthenticated GET. */
  function GetAthletesPage(w: World, limit: nat, offset: nat): (out: (World, Result<Page>))
    ensures out.0.sent == w.sent + [Request(PageUrl(limit, offset), "GET", map[], None)]
    ensures OnlyNetwork(w, out.0)
    ensures out.1.Ok? ==> NextIsOkJson(w)
    ensures NextIsOkJson(w) && NextReply(w).response.body.value.JArr? ==>
              out.1 == Ok(ArrayPage(NextReply(w).response.body.value.items, limit, offset))
    ensures NextIsOkJson(w) && !NextReply(w).response.body.value.JArr? ==>
              out.1 == ServerPage(NextReply(w).response.body.value)
    ensures NextReply(w).Answer? && NextReply(w).response.IsOk() && NextReply(w).response.body.None? ==>
              out.1 == Err(ParseFailure)
    ensures NextReply(w).NetworkError? ==> out.1 == Err(NetworkFailure)
    ensures NextReply(w).Answer? && !NextReply(w).response.IsOk() ==>
              out.1 == Err(Error("Impossible de charger les athlètes", None))
  {
    var url := PageUrl(limit, offset);
    var (w1, r) := Expect(w, Request(url, "GET", map[], None), "Impossible de charger les athlètes");
    match r
    case Err(e) => (w1, Err(e))
    case Ok(data) =>
      if data.JArr? then (w1, Ok(ArrayPage(data.items, limit, offset))) else (w1, ServerPage(data))
  }

  /** The windows of a bare array from `offset` on, one per page, up to the last one. */
  function Walk(xs: seq<Json>, limit: nat, offset: nat): seq<Json>
    requires limit > 0
    decreases |xs| - offset
  {
    if |xs| <= offset + limit then Slice(xs, offset, limit) else Slice(xs, offset, limit) + Walk(xs, limit, offset + limit)
  }

  /** `Walk` is what following `next` from page to page collects: each page's results, then the next page's while `next` is set. */
  lemma WalkFollowsNext(xs: seq<Json>, limit: nat, offset: nat)
    requires limit > 0
    ensures var p := ArrayPage(xs, limit, offset);
            Walk(xs, limit, offset) == p.results.items + (if p.next == JNull then [] else Walk(xs, limit, offset + limit))
  {
    var p := ArrayPage(xs, limit, offset);
    if p.next == JNull {
      assert p.results.items + [] == p.results.items;
    }
  }

  /** Paging through a bare array from `offset` yields every remaining item once, in order. */
  lemma {:induction false} WalkCollectsAll(xs: seq<Json>, limit: nat, offset: nat)
    requires limit > 0 && offset <= |xs|
    ensures Walk(xs, limit, offset) == xs[offset..]
    decreases |xs| - offset
  {
    if |xs| <= offset + limit {
      WalkLast(xs, limit, offset);
    } else {
      WalkStep(xs, limit, offset);
      WalkCollectsAll(xs, limit, offset + limit);
      SplitAt(xs, offset, offset + limit);
    }
  }

  lemma SplitAt(xs: seq<Json>, i: nat, j: nat)
    requires i <= j <= |xs|
    ensures xs[i..] == xs[i..j] + xs[j..]
  {
  }

  /** The last page holds everything that is left. */
  lemma WalkLast(xs: seq<Json>, limit: nat, offset: nat)
    requires limit > 0 && offset <= |xs| <= offset + limit
    ensures Walk(xs, limit, offset) == xs[offset..]
  {
  }

  /** A page that is not the last holds a full window. */
  lemma WalkStep(xs: seq<Json>, limit: nat, offset: nat)
    requires limit > 0 && |xs| > offset + limit
    ensures Walk(xs, limit, offset) == xs[offset..offset + limit] + Walk(xs, limit, offset + limit)
  {
  }

  // -------------------------------------------------------------------
  // Token lifecycle (shared with userApi.js through `base`)

  function LoginRequest(base: string, email: string, password: string): Request
  {
    PostJson(base + "/api/auth/login/", Some(JObj(map["email" := JStr(email), "password" := JStr(password)])))
  }

  /**
   * `login(email, password)`: a body that is not JSON is "Internal server
   * error" whatever the status; a refused login throws the server's message
   * with the status; only a successful login writes the two tokens.
   */
  function Login(w: World, base: string, email: string, password: string): (out: (World, Result<Json>))
    ensures out.0.sent == w.sent + [LoginRequest(base, email, password)]
    ensures out.0.nav == w.nav && out.0.toasts == w.toasts
    ensures out.1.Err? ==> out.0.storage == w.storage
    ensures out.1.Ok? <==> NextIsOkJson(w) && NextReply(w).response.body.value != JNull
    ensures out.1.Ok? ==>
              out.1.value == NextReply(w).response.body.value
              && out.0.storage == w.storage[AccessKey := JsString(Member(out.1.value, "access"))]
                                           [RefreshKey := JsString(Member(out.1.value, "refresh"))]
    ensures NextReply(w).Answer? && NextReply(w).response.body.None? ==> out.1 == Err(Error("Internal server error", None))
    ensures NextReply(w).Answer? && !NextReply(w).response.IsOk() && NextReply(w).response.body.Some?
              && NextReply(w).response.body.value != JNull ==>
              out.1 == Err(Error(MessageOr(NextReply(w).response.body.value, "message", "Login failed"),
                                 Some(NextReply(w).response.status)))
    ensures NextReply(w).Answer? && NextReply(w).response.body == Some(JNull) ==> out.1 == Err(TypeFailure)
    ensures NextReply(w).NetworkError? ==> out.1 == Err(NetworkFailure)
  {
    var (w1, reply) := Send(w, LoginRequest(base, email, password));
    match reply
    case NetworkError => (w1, Err(NetworkFailure))
    case Answer(res) =>
      if res.body.None? then (w1, Err(Error("Internal server error", None)))
      else
        var data := res.body.value;
        if data == JNull then (w1, Err(TypeFailure))
        else if !res.IsOk() then (w1, Err(Error(MessageOr(data, "message", "Login failed"), Some(res.status))))
        else
          var w2 := SetItem(w1, AccessKey, JsString(Member(data, "access")));
          (SetItem(w2, RefreshKey, JsString(Member(data, "refresh"))), Ok(data))
  }

  function RefreshRequest(base: string, refreshToken: string): Request
  {
    PostJson(base + "/api/auth/refresh/", Some(JObj(map["refresh" := JStr(refreshToken)])))
  }

  const NoRefreshToken := Error("No refresh token available", None)

  /**
   * `refreshAccessToken()`: without a stored refresh token nothing is sent;
   * otherwise one POST, and only a successful one overwrites the access token
   * (with `String(data.access)`). The value returned is `data.access` itself.
   */
  function RefreshAccessToken(w: World, base: string): (out: (World, Result<Option<Json>>))
    ensures !Filled(GetItem(w, RefreshKey)) ==> out == (w, Err(NoRefreshToken))
    ensures Filled(GetItem(w, RefreshKey)) ==> out.0.sent == w.sent + [RefreshRequest(base, w.storage[RefreshKey])]
    ensures out.0.nav == w.nav && out.0.toasts == w.toasts
    ensures out.1.Err? ==> out.0.storage == w.storage
    ensures out.1.Ok? ==> Filled(GetItem(w, RefreshKey)) && NextIsOkJson(w)
    ensures out.1.Ok? ==> out.0.storage == w.storage[AccessKey := JsString(out.1.value)]
    ensures out.1.Ok? ==> out.1.value == Member(NextReply(w).response.body.value, "access")
    ensures Filled(GetItem(w, RefreshKey)) && NextReply(w).Answer? && !NextReply(w).response.IsOk() ==>
              out.1 == Err(Error("Token refresh failed", None))
  {
    var rt := GetItem(w, RefreshKey);
    if !Filled(rt) then (w, Err(NoRefreshToken))
    else
      var (w1, reply) := Send(w, RefreshRequest(base, rt.value));
      match reply
      case NetworkError => (w1, Err(NetworkFailure))
      case Answer(res) =>
        if !res.IsOk() then (w1, Err(Error("Token refresh failed", None)))
        else
          match ParseBody(res)
          case Err(e) => (w1, Err(e))
          case Ok(data) =>
            if data == JNull then (w1, Err(TypeFailure))
            else (SetItem(w1, AccessKey, JsString(Member(data, "access"))), Ok(Member(data, "access")))
  }

  /** Storage agrees with `s` on every key but the access token. */
  predicate SameButAccess(s: map<string, string>, s': map<string, string>)
  {
    s' - {AccessKey} == s - {AccessKey} && (AccessKey in s ==> AccessKey in s')
  }

  /**
   * One authenticated request with the one-shot 401 recovery of `api.js` and
   * `fetchWithAuth`: `proto` goes out with `token`; on a 401 the access token
   * is refreshed and `proto` goes out once more with the new one, whatever
   * that second answer is.
   */
  function WithRetry(w: World, base: string, token: string, proto: Request): (out: (World, Result<Response>))
    ensures |w.sent| < |out.0.sent| <= |w.sent| + 3
    ensures out.0.sent[..|w.sent| + 1] == w.sent + [Authorize(proto, token)]
    ensures !Is401(NextReply(w)) ==> out.0 == Send(w, Authorize(proto, token)).0
    ensures !Is401(NextReply(w)) ==>
              out.1 == (if NextReply(w).Answer? then Ok(NextReply(w).response) else Err(NetworkFailure))
    ensures |out.0.sent| > |w.sent| + 1 ==>
              Is401(NextReply(w)) && Filled(GetItem(w, RefreshKey))
              && out.0.sent[|w.sent| + 1] == RefreshRequest(base, w.storage[RefreshKey])
    ensures |out.0.sent| == |w.sent| + 3 ==>
              AccessKey in out.0.storage && out.0.sent[|w.sent| + 2] == Authorize(proto, out.0.storage[AccessKey])
    ensures out.1.Ok? && Is401(NextReply(w)) ==> |out.0.sent| == |w.sent| + 3
    ensures SameButAccess(w.storage, out.0.storage)
    ensures out.0.nav == w.nav && out.0.toasts == w.toasts
  {
    var (w1, reply) := Send(w, Authorize(proto, token));
    match reply
    case NetworkError => (w1, Err(NetworkFailure))
    case Answer(res) =>
      if res.status != 401 then (w1, Ok(res))
      else
        var (w2, t) := RefreshAccessToken(w1, base);
        match t
        case Err(e) => (w2, Err(e))
        case Ok(renewed) =>
          var (w3, reply2) := Send(w2, Authorize(proto, JsString(renewed)));
          match reply2
          case NetworkError => (w3, Err(NetworkFailure))
          case Answer(res2) => (w3, Ok(res2))
  }

  /** `logout()` of either client: both tokens go, then a full navigation to `target`. */
  function Logout(w: World, target: string): (w': World)
    ensures AccessKey !in w'.storage && RefreshKey !in w'.storage
    ensures forall k :: k != AccessKey && k != RefreshKey ==>
              (k in w'.storage <==> k in w.storage) && (k in w.storage ==> w'.storage[k] == w.storage[k])
    ensures w'.nav == w.nav + [Assign(target)]
    ensures w'.sent == w.sent && w'.replies == w.replies && w'.toasts == w.toasts
  {
    Navigate(RemoveItem(RemoveItem(w, AccessKey), RefreshKey), Assign(target))
  }

  const LogoutTarget := "/login?origin=logout"

  /** A reply that makes `refreshAccessToken` succeed: 2xx with a non-null JSON body. */
  predicate RefreshGranted(r: Reply)
  {
    r.Answer? && r.response.IsOk() && r.response.body.Some? && r.response.body.value != JNull
  }

  /** The access token stored after the refresh answered `r`: `String(data.access)`. */
  function Renewed(r: Reply): string
    requires RefreshGranted(r)
  {
    JsString(Member(r.response.body.value, "access"))
  }

  /**
   * The 401 path of `WithRetry`, for every world: the refresh is sent when a
   * refresh token is stored; a failed refresh ends the call with its error; a
   * successful one is followed by exactly one more request, `proto` with the
   * renewed token, and that request's answer is the result, whatever its status.
   */
  lemma UnauthorizedRetriedOnce(w: World, base: string, token: string, proto: Request)
    requires Is401(NextReply(w))
    ensures var w1 := Send(w, Authorize(proto, token)).0;
            var (w2, t) := RefreshAccessToken(w1, base);
            var out := WithRetry(w, base, token, proto);
            (Filled(GetItem(w, RefreshKey)) ==>
               |out.0.sent| >= |w.sent| + 2 && out.0.sent[|w.sent| + 1] == RefreshRequest(base, w.storage[RefreshKey]))
            && (t.Err? ==>
                  out == (w2, Err(t.error))
                  && |out.0.sent| == |w.sent| + (if Filled(GetItem(w, RefreshKey)) then 2 else 1))
            && (t.Ok? ==>
                  |out.0.sent| == |w.sent| + 3
                  && out.0.sent[|w.sent| + 2] == Authorize(proto, JsString(t.value))
                  && out.0 == Send(w2, Authorize(proto, JsString(t.value))).0
                  && out.1 == (if NextReply(w2).Answer? then Ok(NextReply(w2).response) else Err(NetworkFailure)))
  {
  }

  /**
   * On a 401, a granted refresh and any third answer, `WithRetry` sends exactly
   * the request, the refresh and one retry with the renewed token, stores that
   * token, and returns the third answer as it is, even another 401.
   */
  lemma RetryAnswerIsFinal(w: World, base: string, token: string, proto: Request)
    requires |w.replies| >= 3 && Is401(w.replies[0]) && Filled(GetItem(w, RefreshKey))
    requires RefreshGranted(w.replies[1]) && w.replies[2].Answer?
    ensures var renewed := Renewed(w.replies[1]);
            WithRetry(w, base, token, proto)
            == (w.(storage := w.storage[AccessKey := renewed],
                   sent := w.sent + [Authorize(proto, token), RefreshRequest(base, w.storage[RefreshKey]), Authorize(proto, renewed)],
                   replies := w.replies[3..]),
                Ok(w.replies[2].response))
  {
    var rt, renewed := w.storage[RefreshKey], Renewed(w.replies[1]);
    var w1 := w.(sent := w.sent + [Authorize(proto, token)], replies := w.replies[1..]);
    assert Send(w, Authorize(proto, token)) == (w1, w.replies[0]);
    var w2 := w1.(sent := w1.sent + [RefreshRequest(base, rt)], replies := w.replies[2..], storage := w.storage[AccessKey := renewed]);
    assert Send(w1, RefreshRequest(base, rt)) == (w2.(storage := w.storage), w.replies[1]);
    assert RefreshAccessToken(w1, base) == (w2, Ok(Member(w.replies[1].response.body.value, "access")));
    var w3 := w2.(sent := w2.sent + [Authorize(proto, renewed)], replies := w.replies[3..]);
    assert Send(w2, Authorize(proto, renewed)) == (w3, w.replies[2]);
    assert w3.sent == w.sent + [Authorize(proto, token), RefreshRequest(base, rt), Authorize(proto, renewed)];
    assert WithRetry(w, base, token, proto) == (w3, Ok(w.replies[2].response));
  }

  /** Logging out twice leaves the same storage as logging out once. */
  lemma LogoutIdempotent(w: World, target: string)
    ensures Logout(Logout(w, target), target).storage == Logout(w, target).storage
  {
  }

  // -------------------------------------------------------------------
  // Authenticated endpoints of api.js

  const NotAuthenticated := Error("User not authenticated", None)

  function MeRequest(base: string): Request
  {
    Request(base + "/api/auth/me/", "GET", map[], None)
  }

  /** `res.ok` or throw `failure`, then `res.json()`, after an authenticated call. */
  function AfterAuth(r: Result<Response>, failure: string): (out: Result<Json>)
    ensures out.Ok? <==> r.Ok? && r.value.IsOk() && r.value.body.Some?
    ensures out.Ok? ==> out.value == r.value.body.value
    ensures r.Ok? && !r.value.IsOk() ==> out == Err(Error(failure, None))
    ensures r.Err? ==> out == Err(r.error)
  {
    match r
    case Err(e) => Err(e)
    case Ok(res) => if !res.IsOk() then Err(Error(failure, None)) else ParseBody(res)
  }

  /** `fetchUserProfile()`: GET /api/auth/me/ with the bearer token and the 401 recovery. */
  function FetchUserProfile(w: World): (out: (World, Result<Json>))
    ensures !Filled(GetItem(w, AccessKey)) ==> out == (w, Err(NotAuthenticated))
    ensures Filled(GetItem(w, AccessKey)) ==>
              var (w1, r) := WithRetry(w, BaseUrl, w.storage[AccessKey], MeRequest(BaseUrl));
              out.0 == w1 && out.1 == AfterAuth(r, "Failed to fetch user profile")
    ensures |out.0.sent| <= |w.sent| + 3
    ensures SameButAccess(w.storage, out.0.storage)
    ensures out.0.nav == w.nav && out.0.toasts == w.toasts
  {
    var token := GetItem(w, AccessKey);
    if !Filled(token) then (w, Err(NotAuthenticated))
    else
      var (w1, r) := WithRetry(w, BaseUrl, token.value, MeRequest(BaseUrl));
      (w1, AfterAuth(r, "Failed to fetch user profile"))
  }

  /**
   * A 401, a successful refresh, then a second 401: exactly one refresh and
   * one retry with the renewed token go out, and the second 401 is not retried
   * but becomes the generic failure.
   */
  lemma SecondUnauthorizedIsFinal(w: World)
    requires Filled(GetItem(w, AccessKey)) && Filled(GetItem(w, RefreshKey))
    requires |w.replies| >= 3 && Is401(w.replies[0]) && RefreshGranted(w.replies[1]) && Is401(w.replies[2])
    ensures var (w', r) := FetchUserProfile(w);
            var renewed := Renewed(w.replies[1]);
            w'.sent == w.sent + [Authorize(MeRequest(BaseUrl), w.storage[AccessKey]),
                                 RefreshRequest(BaseUrl, w.storage[RefreshKey]),
                                 Authorize(MeRequest(BaseUrl), renewed)]
            && w'.replies == w.replies[3..]
            && w'.storage == w.storage[AccessKey := renewed]
            && r == Err(Error("Failed to fetch user profile", None))
  {
    RetryAnswerIsFinal(w, BaseUrl, w.storage[AccessKey], MeRequest(BaseUrl));
  }

  /** `typeof data === "object"` (true of `null` and of arrays too). */
  predicate IsObjectType(data: Json)
  {
    data.JNull? || data.JArr? || data.JObj?
  }

  function PatchUserRequest(userId: Option<Json>, data: Json): Request
  {
    Request(BaseUrl + "/api/users/" + JsString(userId) + "/", "PATCH", JsonHeaders(), Some(data))
  }

  /**
   * `updateProfile(id, data)`: the `id` argument is ignored; the target id is
   * read from a renewed profile fetch. The PATCH goes out with the token read at
   * the start of the call, even when the profile fetch refreshed it.
   */
  function UpdateProfile(w: World, data: Json): (out: (World, Result<Json>))
    ensures !Filled(GetItem(w, AccessKey)) ==> out == (w, Err(Error("Utilisateur non authentifié", None)))
    ensures out.1.Ok? ==>
              FetchUserProfile(w).1.Ok? && FetchUserProfile(w).1.value != JNull && IsObjectType(data)
    ensures out.1.Ok? ==>
              var w1 := FetchUserProfile(w).0;
              var userId := Member(FetchUserProfile(w).1.value, "id");
              |out.0.sent| > |w1.sent| && out.0.sent[|w1.sent|] == Authorize(PatchUserRequest(userId, data), w.storage[AccessKey])
    ensures Filled(GetItem(w, AccessKey)) ==>
              var (w1, p) := FetchUserProfile(w);
              (p.Err? ==> out == (w1, Err(p.error)))
              && (p.Ok? ==> out == PatchProfile(w1, w.storage[AccessKey], p.value, data))
    ensures |out.0.sent| <= |w.sent| + 6
    ensures SameButAccess(w.storage, out.0.storage)
    ensures out.0.nav == w.nav && out.0.toasts == w.toasts
  {
    var token := GetItem(w, AccessKey);
    if !Filled(token) then (w, Err(Error("Utilisateur non authentifié", None)))
    else
      var (w1, p) := FetchUserProfile(w);
      match p
      case Err(e) => (w1, Err(e))
      case Ok(user) => PatchProfile(w1, token.value, user, data)
  }

  /** The message `updateProfile` throws for a payload that is not a JSON object. */
  const NotAnObject := "Les données de mise à jour doivent être un objet JSON valide"

  /**
   * The rest of `updateProfile` once the profile is fetched: `user.id` is read,
   * the payload's type is checked, and the PATCH goes out with `token`.
   */
  function PatchProfile(w: World, token: string, user: Json, data: Json): (out: (World, Result<Json>))
    ensures out.1.Ok? ==>
              user != JNull && IsObjectType(data)
              && |out.0.sent| > |w.sent| && out.0.sent[|w.sent|] == Authorize(PatchUserRequest(Member(user, "id"), data), token)
    ensures user == JNull ==> out == (w, Err(TypeFailure))
    ensures user != JNull && !IsObjectType(data) ==> out == (w, Err(Error(NotAnObject, None)))
    ensures user != JNull && IsObjectType(data) ==>
              var (w2, r) := WithRetry(w, BaseUrl, token, PatchUserRequest(Member(user, "id"), data));
              out == (w2, AfterPatch(r))
    ensures |out.0.sent| <= |w.sent| + 3
    ensures SameButAccess(w.storage, out.0.storage)
    ensures out.0.nav == w.nav && out.0.toasts == w.toasts
  {
    if user == JNull then (w, Err(TypeFailure))
    else if !IsObjectType(data) then
      (w, Err(Error(NotAnObject, None)))
    else SendPatch(w, token, user, data)
  }

  /** The PATCH itself, with the 401 recovery, and the reading of its answer. */
  function SendPatch(w: World, token: string, user: Json, data: Json): (World, Result<Json>)
  {
    var (w2, r) := WithRetry(w, BaseUrl, token, PatchUserRequest(Member(user, "id"), data));
    (w2, AfterPatch(r))
  }

  /** `res.ok` or throw the error body's `message`, then `res.json()`, after the PATCH. */
  function AfterPatch(r: Result<Response>): (out: Result<Json>)
    ensures out.Ok? <==> r.Ok? && r.value.IsOk() && r.value.body.Some?
    ensures out.Ok? ==> out.value == r.value.body.value
    ensures r.Err? ==> out == Err(r.error)
    ensures r.Ok? && !r.value.IsOk() && r.value.body == Some(JNull) ==> out == Err(TypeFailure)
    ensures r.Ok? && !r.value.IsOk() && r.value.body.Some? && r.value.body.value != JNull ==>
              out == Err(Error(MessageOr(r.value.body.value, "message", "Échec de la mise à jour du profil"), None))
  {
    match r
    case Err(e) => Err(e)
    case Ok(res) =>
      if res.IsOk() then ParseBody(res)
      else
        match ParseBody(res)
        case Err(e) => Err(e)
        case Ok(errorResponse) =>
          if errorResponse == JNull then Err(TypeFailure)
          else Err(Error(MessageOr(errorResponse, "message", "Échec de la mise à jour du profil"), None))
  }

  function ChangePasswordRequest(oldPassword: string, newPassword: string, confirm: Option<string>): Request
  {
    var confirmed := if confirm.Some? then confirm.value else newPassword;
    PostJson(BaseUrl + "/api/auth/change-password/",
             Some(JObj(map["old_password" := JStr(oldPassword), "new_password" := JStr(newPassword),
                           "confirm_new_password" := JStr(confirmed)])))
  }

  /** `changePassword(old, new, confirm)`: a missing confirmation defaults to the new password. */
  function ChangePassword(w: World, oldPassword: string, newPassword: string, confirm: Option<string>): (out: (World, Result<Json>))
    ensures !Filled(GetItem(w, AccessKey)) ==> out == (w, Err(NotAuthenticated))
    ensures Filled(GetItem(w, AccessKey)) ==>
              var (w1, r) := WithRetry(w, BaseUrl, w.storage[AccessKey], ChangePasswordRequest(oldPassword, newPassword, confirm));
              out.0 == w1 && out.1 == AfterAuth(r, "Password change failed")
    ensures confirm.None? ==> ChangePasswordRequest(oldPassword, newPassword, confirm).body.value.fields["confirm_new_password"] == JStr(newPassword)
    ensures |out.0.sent| <= |w.sent| + 3
    ensures SameButAccess(w.storage, out.0.storage)
    ensures out.0.nav == w.nav && out.0.toasts == w.toasts
  {
    var token := GetItem(w, AccessKey);
    if !Filled(token) then (w, Err(NotAuthenticated))
    else
      var (w1, r) := WithRetry(w, BaseUrl, token.value, ChangePasswordRequest(oldPassword, newPassword, confirm));
      (w1, AfterAuth(r, "Password change failed"))
  }

  function EraseRequest(): Request
  {
    Request(BaseUrl + "/api/privacy/erase/", "POST", JsonHeaders(), None)
  }

  /** The message thrown by a refused erase: the body's `message` when it parses and is truthy. */
  function EraseFailure(res: Response): (message: string)
    ensures res.body.None? || res.body == Some(JNull) ==> message == "Failed to delete account"
    ensures res.body.Some? && res.body.value != JNull && Truthy(Member(res.body.value, "message")) ==>
              message == JsString(Member(res.body.value, "message"))
    ensures res.body.Some? && res.body.value != JNull && !Truthy(Member(res.body.value, "message")) ==>
              message == "Failed to delete account"
  {
    var fallback := "Failed to delete account";
    if res.body.None? || res.body.value == JNull then fallback
    else MessageOr(res.body.value, "message", fallback)
  }

  /** `deleteAccount()`: POST /api/privacy/erase/ with the 401 recovery. */
  function DeleteAccount(w: World): (out: (World, Result<Json>))
    ensures !Filled(GetItem(w, AccessKey)) ==> out == (w, Err(NotAuthenticated))
    ensures Filled(GetItem(w, AccessKey)) ==> out.0 == WithRetry(w, BaseUrl, w.storage[AccessKey], EraseRequest()).0
    ensures out.1.Ok? <==>
              Filled(GetItem(w, AccessKey))
              && var r := WithRetry(w, BaseUrl, w.storage[AccessKey], EraseRequest()).1;
                 r.Ok? && r.value.IsOk() && r.value.body.Some?
    ensures Filled(GetItem(w, AccessKey)) ==>
              var r := WithRetry(w, BaseUrl, w.storage[AccessKey], EraseRequest()).1;
              (out.1.Ok? ==> out.1.value == r.value.body.value)
              && (r.Ok? && !r.value.IsOk() ==> out.1 == Err(Error(EraseFailure(r.value), None)))
              && (r.Err? ==> out.1 == Err(r.error))
    ensures |out.0.sent| <= |w.sent| + 3
    ensures SameButAccess(w.storage, out.0.storage)
    ensures out.0.nav == w.nav && out.0.toasts == w.toasts
  {
    var token := GetItem(w, AccessKey);
    if !Filled(token) then (w, Err(NotAuthenticated))
    else
      var (w1, r) := WithRetry(w, BaseUrl, token.value, EraseRequest());
      match r
      case Err(e) => (w1, Err(e))
      case Ok(res) =>
        if res.IsOk() then (w1, ParseBody(res)) else (w1, Err(Error(EraseFailure(res), None)))
  }
}

/** The operations of `Api` run step by step against a window, each proved to agree with its function. */
module ApiClient {
  import opened Js
  import opened Browser
  import opened Api

  class Client {
    const win: Window

    constructor (win: Window)
      ensures this.win == win
    {
      this.win := win;
    }

    method Expecting(req: Request, failure: string) returns (r: Result<Json>)
      modifies win
      ensures (win.State(), r) == Expect(old(win.State()), req, failure)
    {
      var reply := win.Fetch(req);
      if reply.NetworkError? {
        r := Err(NetworkFailure);
      } else if !reply.response.IsOk() {
        r := Err(Error(failure, None));
      } else {
        r := ParseBody(reply.response);
      }
    }

    method ResetPassword(email: string) returns (r: Result<Json>)
      modifies win
      ensures (win.State(), r) == Api.ResetPassword(old(win.State()), email)
    {
      r := Expecting(ResetPasswordRequest(email), "Reset password request failed");
    }

    method ConfirmPasswordReset(token: string, newPassword: string) returns (r: Result<Json>)
      modifies win
      ensures (win.State(), r) == Api.ConfirmPasswordReset(old(win.State()), token, newPassword)
    {
      r := Expecting(ConfirmResetRequest(token, newPassword), "Password reset confirmation failed");
    }

    method RequestPasswordReset(email: string) returns (r: Result<Json>)
      modifies win
      ensures (win.State(), r) == Api.RequestPasswordReset(old(win.State()), email)
    {
      r := Expecting(RequestResetRequest(email), "Password reset request failed");
    }

    method RegisterUser(userData: map<string, Json>) returns (r: Result<Json>)
      modifies win
      ensures (win.State(), r) == Api.RegisterUser(old(win.State()), userData)
    {
      var reply := win.Fetch(RegisterRequest(userData));
      if reply.NetworkError? {
        return Err(NetworkFailure);
      }
      var res := reply.response;
      if res.IsOk() {
        return ParseBody(res);
      }
      var errorData := ParseBody(res);
      if errorData.Err? {
        r := errorData;
      } else if errorData.value == JNull {
        r := Err(TypeFailure);
      } else {
        r := Err(Error(MessageOr(errorData.value, "message", "Registration failed"), None));
      }
    }

    method VerifyEmail(token: string) returns (r: Result<Json>)
      modifies win
      ensures (win.State(), r) == Api.VerifyEmail(old(win.State()), token)
    {
      var reply := win.Fetch(VerifyEmailRequest(token));
      if reply.NetworkError? {
        return Err(NetworkFailure);
      }
      var res := reply.response;
      var data := JObj(map[]);
      if res.body.Some? {
        data := res.body.value;
      }
      if res.IsOk() {
        r := Ok(data);
      } else if data == JNull {
        r := Err(TypeFailure);
      } else {
        r := Err(Error(MessageOr(data, "error", "Échec de la vérification."), Some(res.status)));
      }
    }

    method GetAthletes() returns (r: Result<Json>)
      modifies win
      ensures (win.State(), r) == Api.GetAthletes(old(win.State()))
    {
      var data := Expecting(AthletesRequest(win.storage), "Impossible de charger les athlètes");
      if data.Ok? {
        r := AthleteList(data.value);
      } else {
        r := data;
      }
    }

    method GetAthleteBySlug(slug: string) returns (r: Result<Json>)
      modifies win
      ensures (win.State(), r) == Api.GetAthleteBySlug(old(win.State()), slug)
    {
      if IsUuidLike(slug) {
        var reply := win.Fetch(AthleteByIdRequest(win.storage, slug));
        if reply.NetworkError? {
          return Err(NetworkFailure);
        }
        if reply.response.IsOk() {
          return ParseBody(reply.response);
        }
      }
      var list := GetAthletes();
      if list.Err? {
        r := list;
      } else if list.value.JArr? {
        r := FindAthlete(list.value.items, slug);
      } else {
        r := Err(Error("list.find is not a function", None));
      }
    }

    method GetAthletesPage(limit: nat, offset: nat) returns (r: Result<Page>)
      modifies win
      ensures (win.State(), r) == Api.GetAthletesPage(old(win.State()), limit, offset)
    {
      var data := Expecting(Request(PageUrl(limit, offset), "GET", map[], None), "Impossible de charger les athlètes");
      if data.Err? {
        r := Err(data.error);
      } else if data.value.JArr? {
        r := Ok(ArrayPage(data.value.items, limit, offset));
      } else {
        r := ServerPage(data.value);
      }
    }

    method Login(base: string, email: string, password: string) returns (r: Result<Json>)
      modifies win
      ensures (win.State(), r) == Api.Login(old(win.State()), base, email, password)
    {
      var reply := win.Fetch(LoginRequest(base, email, password));
      if reply.NetworkError? {
        return Err(NetworkFailure);
      }
      var res := reply.response;
      if res.body.None? {
        return Err(Error("Internal server error", None));
      }
      var data := res.body.value;
      if data == JNull {
        r := Err(TypeFailure);
      } else if !res.IsOk() {
        r := Err(Error(MessageOr(data, "message", "Login failed"), Some(res.status)));
      } else {
        win.SetStorage(AccessKey, JsString(Member(data, "access")));
        win.SetStorage(RefreshKey, JsString(Member(data, "refresh")));
        r := Ok(data);
      }
    }

    method RefreshAccessToken(base: string) returns (r: Result<Option<Json>>)
      modifies win
      ensures (win.State(), r) == Api.RefreshAccessToken(old(win.State()), base)
    {
      var refreshToken := GetItem(win.State(), RefreshKey);
      if !Filled(refreshToken) {
        return Err(NoRefreshToken);
      }
      var reply := win.Fetch(RefreshRequest(base, refreshToken.value));
      if reply.NetworkError? {
        return Err(NetworkFailure);
      }
      if !reply.response.IsOk() {
        return Err(Error("Token refresh failed", None));
      }
      var data := ParseBody(reply.response);
      if data.Err? {
        r := Err(data.error);
      } else if data.value == JNull {
        r := Err(TypeFailure);
      } else {
        var access := Member(data.value, "access");
        win.SetStorage(AccessKey, JsString(access));
        r := Ok(access);
      }
    }

    method WithRetry(base: string, token: string, proto: Request) returns (r: Result<Response>)
      modifies win
      ensures (win.State(), r) == Api.WithRetry(old(win.State()), base, token, proto)
    {
      var reply := win.Fetch(Authorize(proto, token));
      if reply.NetworkError? {
        return Err(NetworkFailure);
      }
      if reply.response.status != 401 {
        return Ok(reply.response);
      }
      var renewed := RefreshAccessToken(base);
      if renewed.Err? {
        return Err(renewed.error);
      }
      var reply2 := win.Fetch(Authorize(proto, JsString(renewed.value)));
      if reply2.NetworkError? {
        r := Err(NetworkFailure);
      } else {
        r := Ok(reply2.response);
      }
    }

    method Logout(target: string)
      modifies win
      ensures win.State() == Api.Logout(old(win.State()), target)
    {
      win.RemoveStorage(AccessKey);
      win.RemoveStorage(RefreshKey);
      win.Go(Assign(target));
    }

    method FetchUserProfile() returns (r: Result<Json>)
      modifies win
      ensures (win.State(), r) == Api.FetchUserProfile(old(win.State()))
    {
      var token := GetItem(win.State(), AccessKey);
      if !Filled(token) {
        return Err(NotAuthenticated);
      }
      var res := WithRetry(BaseUrl, token.value, MeRequest(BaseUrl));
      r := AfterAuth(res, "Failed to fetch user profile");
    }

    method UpdateProfile(data: Json) returns (r: Result<Json>)
      modifies win
      ensures (win.State(), r) == Api.UpdateProfile(old(win.State()), data)
    {
      var token := GetItem(win.State(), AccessKey);
      if !Filled(token) {
        return Err(Error("Utilisateur non authentifié", None));
      }
      var user := FetchUserProfile();
      if user.Err? {
        return user;
      }
      r := PatchProfile(token.value, user.value, data);
    }

    method PatchProfile(token: string, user: Json, data: Json) returns (r: Result<Json>)
      modifies win
      ensures (win.State(), r) == Api.PatchProfile(old(win.State()), token, user, data)
    {
      if user == JNull {
        r := Err(TypeFailure);
      } else if !IsObjectType(data) {
        r := Err(Error(NotAnObject, None));
      } else {
        r := SendPatch(token, user, data);
      }
    }

    method SendPatch(token: string, user: Json, data: Json) returns (r: Result<Json>)
      modifies win
      ensures (win.State(), r) == Api.SendPatch(old(win.State()), token, user, data)
    {
      var res := WithRetry(BaseUrl, token, PatchUserRequest(Member(user, "id"), data));
      r := AfterPatch(res);
    }

    method ChangePassword(oldPassword: string, newPassword: string, confirm: Option<string>) returns (r: Result<Json>)
      modifies win
      ensures (win.State(), r) == Api.ChangePassword(old(win.State()), oldPassword, newPassword, confirm)
    {
      var token := GetItem(win.State(), AccessKey);
      if !Filled(token) {
        return Err(NotAuthenticated);
      }
      var res := WithRetry(BaseUrl, token.value, ChangePasswordRequest(oldPassword, newPassword, confirm));
      r := AfterAuth(res, "Password change failed");
    }

    method DeleteAccount() returns (r: Result<Json>)
      modifies win
      ensures (win.State(), r) == Api.DeleteAccount(old(win.State()))
    {
      var token := GetItem(win.State(), AccessKey);
      if !Filled(token) {
        return Err(NotAuthenticated);
      }
      var res := WithRetry(BaseUrl, token.value, EraseRequest());
      if res.Err? {
        r := Err(res.error);
      } else if res.value.IsOk() {
        r := ParseBody(res.value);
      } else {
        r := Err(Error(EraseFailure(res.value), None));
      }
    }
  }
}
