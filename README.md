# sponsorsclub core, modelled in Dafny

This project models the core of sponsorsclub, a platform that connects
athletes with sponsors. The core has two halves.

**Front end.** The front end is a Next.js application, modelled in these parts:

- **API clients.** These are `front/src/lib/api.js` and `front/src/lib/userApi.js`.
  - They cover registration, login, the refresh of the access token, password
    resets, e-mail verification, the athletes listing and its paging, the
    profile, password change and account deletion.
  - The shared refresh-and-retry-once path is taken when the server answers 401.
- **Session provider.** This is `front/src/context/AuthContext.js`: the startup
  check of the stored token and `refreshAuth`.
- **Pages.** These are the messages, followed athletes, athletes feed
  (infinite scroll) and e-mail verification pages.
- **Components.** These are the item card, the athlete profile, the
  language and currency dialog, the settings dialog and the scroll handlers.
- **Forms.** These are the profile, onboarding, register, login, change-password,
  reset-password, reset-confirmation and delete-account forms, with their
  validation schemas.

**Django auth service.** Four files are modelled:

- the user manager and model (`create_user`, `create_superuser`, the
  verification token and its expiry, activation);
- the user and change-password serializers;
- the permission classes;
- the change-password view.

**How the browser is modelled.** The browser is a value
`World(storage, sent, replies, nav, toasts)`:

- `storage` is `localStorage`;
- `sent` is the log of every request, with its method, URL, headers and body;
- `replies` is the server's scripted answers, consumed one per `fetch`. An
  exhausted script answers a network error;
- `nav` is the log of navigations: `router.push`, `router.replace` and
  assignments to `window.location.href`;
- `toasts` is the log of toast notifications.

A response body is `Option<Json>`: `None` means a body that is not JSON, on
which `res.json()` throws.

**Pure functions and imperative mirrors.** Every client operation is a pure
function `World -> (World, Result<T>)`. Its contract states:

- the requests that are sent;
- what is stored;
- what is returned on every branch: success, refusal with its message and
  status, a body that is not JSON, the 401 refresh path, and network failure.

Each such function has an imperative mirror. It is a method on a client
class over a `Browser.Window` object, proved to produce exactly the
function's outcome.

Components and pages work the same way. Each is a class whose fields are the
component's React state. Its handler methods are proved equal to a pure
effect function, and the properties are proved about that function.

**Server side.** The Django side works on field maps:

- `Models.User` has a `fields` map and a log of `save()` calls;
- `Models.Manager` has the list of created users;
- the serializer's `update` is a loop over the validated data.

**JavaScript semantics.** Module `Js` gives the JavaScript semantics that the
code relies on:

- truthiness, `||` and `??`;
- member access on `undefined`;
- `String()` coercion;
- `split`, `join` and `trim`;
- `encodeURIComponent`.

## Model

| member | source | states |
|---|---|---|
| Api.Expect | front/src/lib/api.js:14-19 | the call's result is Ok iff the reply is 2xx with a JSON body, and then it is that body; a refused reply gives the caller's failure message; the world is the one after the fetch |
| Api.ResetPassword | front/src/lib/api.js:6-20 | exactly one POST to /api/auth/reset-password/ is logged; only the sent log and the reply script change; Ok iff 2xx with JSON; a refusal gives "Reset password request failed" |
| Api.ConfirmPasswordReset | front/src/lib/api.js:23-35 | one POST of token and new_password to /api/auth/reset-password/confirm/; nothing else changes; a refusal gives "Password reset confirmation failed" |
| Api.RegisterUser | front/src/lib/api.js:38-53 | one POST of the user data; a refusal rejects with the body's `message` or "Registration failed"; a refusal body that is not JSON rejects as a parse failure, a `null` body as a type failure |
| Api.VerifyEmail | front/src/lib/api.js:56-69 | one POST of the token; Ok iff the status is 2xx, whatever the body, and then the JSON body, or `{}` for a body that is not JSON; a refusal throws `data.error || "Échec de la vérification."` with the response status; a `null` refusal body is a TypeError; a network failure is passed on |
| Api.RequestPasswordReset | front/src/lib/api.js:251-263 | one POST to /api/auth/password/reset/; nothing else changes; a refusal gives "Password reset request failed" |
| Api.WithAuthIfAvailable | front/src/lib/api.js:74-82 | an Authorization header is present iff a non-empty access token is stored, and then it is `Bearer <token>`; no other header |
| Api.AthleteList | front/src/lib/api.js:90-92 | an array body is returned as it is; any other non-null body gives its `results` when truthy, `[]` when falsy; a `null` body throws |
| Api.GetAthletes | front/src/lib/api.js:84-93 | one GET of /api/athletes/ with the optional bearer header; an ok JSON reply gives exactly AthleteList of its body; a refusal gives "Impossible de charger les athlètes"; an ok reply that is not JSON fails to parse; a network failure is passed on |
| Api.FindAthlete | front/src/lib/api.js:106 | a hit is the first element whose profile_url is /athletes/{slug} or whose id is the slug; `null` only when no element matches; a TypeError exactly when some `null` element comes before every hit |
| Api.GetAthleteBySlug | front/src/lib/api.js:95-107 | a slug that is not uuid-like only searches the list; a uuid-like slug is fetched directly first: a 2xx answer ends the call after one request, a refused one falls back to searching the list, and a network failure ends the call with that failure; never more than two requests |
| Api.Slice | front/src/lib/api.js:116 | `slice(offset, offset + limit)`: min(limit, remaining) elements, element i being xs[offset + i] |
| Api.ArrayPage | front/src/lib/api.js:114-117 | the plain-array fallback: results are the slice, and `next` is set (to the page's own URL) iff the array is longer than offset + limit |
| Api.ServerPage | front/src/lib/api.js:118 | a paginated body: its truthy `results` and `next` pass through, else `[]` and `null`; only a `null` body throws |
| Api.GetAthletesPage | front/src/lib/api.js:109-119 | one GET of ?limit=&offset= without an Authorization header; an ok array body is paged by ArrayPage, an ok non-array body read by ServerPage; a refusal gives "Impossible de charger les athlètes"; a body that is not JSON and a network failure are errors |
| Api.WalkFollowsNext | front/src/lib/api.js:114-117 | over a plain array, each page's `next` is set exactly when the walk continues at offset + limit |
| Api.WalkCollectsAll | front/src/lib/api.js:114-117 | following `next` over a plain array from an offset yields exactly the elements from that offset on, in order, none lost or repeated |
| Api.WalkStep | front/src/lib/api.js:114-117 | one step of the walk is the current window followed by the walk from offset + limit |
| Api.WalkLast | front/src/lib/api.js:114-117 | a window that reaches the end is the last page |
| Api.Login | front/src/lib/api.js:121-148 | one POST of the credentials; storage changes only on success, to `String(data.access)` and `String(data.refresh)`; Ok iff 2xx with a JSON body that is not `null`; a body that is not JSON gives "Internal server error"; a refusal throws `data.message || "Login failed"` with the status; a `null` body is a TypeError |
| Api.RefreshAccessToken | front/src/lib/api.js:151-170 | with no refresh token nothing is sent and it fails with "No refresh token available"; on success only the access token changes and the result is `data.access`; a refusal gives "Token refresh failed" |
| Api.WithRetry | front/src/lib/api.js:192-200 | the request is sent once with the token; only a 401 leads to one refresh and one resend with the stored new token; at most three requests; storage changes only in the access token; a success after a 401 took all three requests (the 401 path in full: Api.UnauthorizedRetriedOnce, Api.RetryAnswerIsFinal) |
| Api.UnauthorizedRetriedOnce | front/src/lib/api.js:192-198 | on any 401 and any script: with a refresh token the second request is the refresh; a failed refresh is the result, after one or two requests; a granted one leads to exactly one resend carrying the new token, and that resend's answer or network error is the result |
| Api.RetryAnswerIsFinal | front/src/lib/api.js:192-198 | a 401, a granted refresh and any third answer: exactly three requests (the call, the refresh, the call with the renewed token), the new token stored, and the third answer returned whatever its status |
| Api.Logout | front/src/lib/api.js:173-180 | both tokens are removed, every other key kept, the page is assigned the target (/login?origin=logout in api.js), and nothing is sent |
| Api.LogoutIdempotent | front/src/lib/api.js:173-180 | logging out twice leaves the storage of logging out once |
| Api.AfterAuth | front/src/lib/api.js:200-201 | after an authenticated call: Ok iff the final response is 2xx with a JSON body, and then the value is that body; a non-2xx response gives the operation's message; a network or refresh error is passed on |
| Api.FetchUserProfile | front/src/lib/api.js:183-202 | without an access token it fails before sending; otherwise GET /api/auth/me/ through WithRetry, and the final answer is read by AfterAuth with "Failed to fetch user profile"; at most three requests |
| Api.SecondUnauthorizedIsFinal | front/src/lib/api.js:192-200 | for any script of a 401, a granted refresh and a second 401: exactly those three requests, the second call carrying the renewed token, the new token stored, the rest of the script untouched, and "Failed to fetch user profile" |
| Api.UpdateProfile | front/src/lib/api.js:206-247 | without a token it fails first with "Utilisateur non authentifié"; otherwise the profile is fetched, a failed fetch is the result, and a fetched profile is handed to PatchProfile with the token read at the start; at most six requests |
| Api.PatchProfile | front/src/lib/api.js:212-247 | a null profile is a TypeError and sends nothing; a payload that is not of type object throws the not-an-object message and sends nothing; otherwise the PATCH of /api/users/<user.id>/ goes through WithRetry with the given token and its final answer is read by AfterPatch; only the access token may change in storage |
| Api.AfterPatch | front/src/lib/api.js:241-246 | Ok iff the PATCH answered 2xx with a JSON body, and then that body; a network or refresh error is passed on; a refusal with a `null` body is a TypeError; one with another JSON body fails with its `message`, or "Échec de la mise à jour du profil" when that is missing or falsy |
| Api.ChangePassword | front/src/lib/api.js:266-301 | without a token it fails; otherwise the POST goes through WithRetry and the final answer is read by AfterAuth with "Password change failed"; a missing confirmation is sent as the new password |
| Api.EraseFailure | front/src/lib/api.js:327-330 | a refused erase without a JSON body, with `null`, or with a falsy `message` reports "Failed to delete account"; a truthy `message` is reported as its string |
| Api.DeleteAccount | front/src/lib/api.js:304-334 | without a token it fails; otherwise POST /api/privacy/erase/ through WithRetry; Ok iff the final response is 2xx with JSON, and then its body; a refused final response gives its `message` or "Failed to delete account"; a network or refresh error is passed on; storage changes only in the access token |
| ApiClient.Client.Expecting | front/src/lib/api.js:14-19 | the window's new state and the result are those of Api.Expect |
| ApiClient.Client.ResetPassword | front/src/lib/api.js:6-20 | the window's new state and the result are those of Api.ResetPassword |
| ApiClient.Client.ConfirmPasswordReset | front/src/lib/api.js:23-35 | the window's new state and the result are those of Api.ConfirmPasswordReset |
| ApiClient.Client.RequestPasswordReset | front/src/lib/api.js:251-263 | the window's new state and the result are those of Api.RequestPasswordReset |
| ApiClient.Client.RegisterUser | front/src/lib/api.js:38-53 | the window's new state and the result are those of Api.RegisterUser |
| ApiClient.Client.VerifyEmail | front/src/lib/api.js:56-69 | the window's new state and the result are those of Api.VerifyEmail |
| ApiClient.Client.GetAthletes | front/src/lib/api.js:84-93 | the window's new state and the result are those of Api.GetAthletes |
| ApiClient.Client.GetAthleteBySlug | front/src/lib/api.js:95-107 | the window's new state and the result are those of Api.GetAthleteBySlug |
| ApiClient.Client.GetAthletesPage | front/src/lib/api.js:109-119 | the window's new state and the result are those of Api.GetAthletesPage |
| ApiClient.Client.Login | front/src/lib/api.js:121-148 | the window's new state and the result are those of Api.Login |
| ApiClient.Client.RefreshAccessToken | front/src/lib/api.js:151-170 | the window's new state and the result are those of Api.RefreshAccessToken |
| ApiClient.Client.WithRetry | front/src/lib/api.js:192-200 | the window's new state and the result are those of Api.WithRetry |
| ApiClient.Client.Logout | front/src/lib/api.js:173-180 | the window's new state is Api.Logout of the old one |
| ApiClient.Client.FetchUserProfile | front/src/lib/api.js:183-202 | the window's new state and the result are those of Api.FetchUserProfile |
| ApiClient.Client.UpdateProfile | front/src/lib/api.js:206-247 | the window's new state and the result are those of Api.UpdateProfile |
| ApiClient.Client.PatchProfile | front/src/lib/api.js:212-247 | the window's new state and the result are those of Api.PatchProfile |
| ApiClient.Client.SendPatch | front/src/lib/api.js:220-246 | the window's new state and the result are those of sending the PATCH through WithRetry and reading the answer with Api.AfterPatch |
| ApiClient.Client.ChangePassword | front/src/lib/api.js:266-301 | the window's new state and the result are those of Api.ChangePassword |
| ApiClient.Client.DeleteAccount | front/src/lib/api.js:304-334 | the window's new state and the result are those of Api.DeleteAccount |
| UserApi.MergedHeaders | front/src/lib/userApi.js:14-18 | the caller's headers are kept, and Content-Type (application/json) and `Authorization: Bearer <token>` are set over them; no other key |
| UserApi.FetchWithAuth | front/src/lib/userApi.js:8-27 | without an access token it fails before sending; otherwise the request with the merged headers, and a 401 triggers one refresh and one resend; at most three requests; storage changes only in the access token (the resend's answer is the result: UserApi.SecondAnswerReturned) |
| UserApi.SecondAnswerReturned | front/src/lib/userApi.js:20-26 | a 401, a granted refresh and any third answer, a second 401 included: the request, the refresh and the request again with the merged headers and the renewed token; the new token stored; the third answer is returned |
| UserApi.Login | front/src/lib/userApi.js:34-57 | one POST of the credentials to the port-8000 service; storage changes only on success, to the returned tokens; Ok iff 2xx with a JSON body that is not `null`; a body that is not JSON gives "Internal server error"; a refusal throws `data.message || "Login failed"` with the status |
| UserApi.RefreshAccessToken | front/src/lib/userApi.js:60-77 | no request without a refresh token; otherwise one POST; storage changes only on success, and only in the access token |
| UserApi.Logout | front/src/lib/userApi.js:80-84 | both tokens are removed, the page is assigned /login, and nothing is sent |
| UserApi.Call | front/src/lib/userApi.js:102-109 | without an access token `Err(User not authenticated)` and nothing sent; otherwise the world FetchWithAuth leaves; Ok iff the final response is 2xx with JSON, and then its body; a non-2xx final response gives the operation's message; a network or refresh error is passed on |
| UserApi.FetchUserProfile | front/src/lib/userApi.js:102-109 | without a token it fails before sending; a refused GET of /api/auth/me/ gives "Failed to fetch user profile" |
| UserApi.ChangePassword | front/src/lib/userApi.js:138-149 | a POST to /api/auth/password/change/ whose body holds only old_password and new_password; a refusal gives "Password change failed" |
| UserApi.GetUsers | front/src/lib/userApi.js:156-162 | the first request is a GET of /api/users/; a refusal gives "Failed to fetch users" |
| UserApi.GetUserById | front/src/lib/userApi.js:165-171 | the first request is a GET of /api/users/{id}/; a refusal gives "Failed to fetch user {id}" |
| UserApi.UpdateUserProfile | front/src/lib/userApi.js:174-181 | the first request is a PUT of the data to /api/users/{id}/; a refusal gives "Failed to update profile" |
| UserApi.DeleteUser | front/src/lib/userApi.js:184-189 | the first request is a DELETE of /api/users/{id}/; a refusal gives "Failed to delete user {id}" |
| UserApiClient.Client.FetchWithAuth | front/src/lib/userApi.js:8-27 | the window's new state and the result are those of UserApi.FetchWithAuth |
| UserApiClient.Client.Login | front/src/lib/userApi.js:34-57 | the window's new state and the result are those of UserApi.Login |
| UserApiClient.Client.RefreshAccessToken | front/src/lib/userApi.js:60-77 | the window's new state and the result are those of UserApi.RefreshAccessToken |
| UserApiClient.Client.Logout | front/src/lib/userApi.js:80-84 | the window's new state is UserApi.Logout of the old one |
| UserApiClient.Client.Call | front/src/lib/userApi.js:102-109 | the window's new state and the result are those of UserApi.Call |
| UserApiClient.Client.FetchUserProfile | front/src/lib/userApi.js:102-109 | the window's new state and the result are those of UserApi.FetchUserProfile |
| UserApiClient.Client.ChangePassword | front/src/lib/userApi.js:138-149 | the window's new state and the result are those of UserApi.ChangePassword |
| UserApiClient.Client.GetUsers | front/src/lib/userApi.js:156-162 | the window's new state and the result are those of UserApi.GetUsers |
| UserApiClient.Client.GetUserById | front/src/lib/userApi.js:165-171 | the window's new state and the result are those of UserApi.GetUserById |
| UserApiClient.Client.UpdateUserProfile | front/src/lib/userApi.js:174-181 | the window's new state and the result are those of UserApi.UpdateUserProfile |
| UserApiClient.Client.DeleteUser | front/src/lib/userApi.js:184-189 | the window's new state and the result are those of UserApi.DeleteUser |
| AuthContext.ValidEarlier | front/src/context/AuthContext.js:11-22 | a token valid at some instant was valid at every earlier instant |
| AuthContext.ExpiresAt | front/src/context/AuthContext.js:11-22 | a decodable token with a numeric `exp` is valid exactly while now (in ms) is below exp × 1000 |
| AuthContext.CoercedExpiry | front/src/context/AuthContext.js:11-22 | `exp` is coerced as `>` does: a string of digits counts as its value, an empty array as 0, an object never |
| AuthContext.StartupEffect | front/src/context/AuthContext.js:30-47 | a valid stored token opens the session with its decoded payload and changes nothing else; an invalid one is removed and /login replaces the page; without a token only the five public paths are stayed on |
| AuthContext.StartupOpensOnlyValid | front/src/context/AuthContext.js:30-47 | after start-up from a closed session, a session token is always the stored token and that token is valid |
| AuthContext.RefreshAuthEffect | front/src/context/AuthContext.js:50-63 | refreshAuth as written: without a refresh token /login replaces the page; a failed refresh does the same; a refresh that returns a token string stores "undefined", clears the session's token and ends on /login |
| AuthContext.RefreshAuthLosesToken | front/src/context/AuthContext.js:55-58 | on the concrete world of the finding below, the stored access token becomes "undefined", the session has no token, and the page goes to /login |
| AuthContext.RefreshAuthIntendedEffect | front/src/context/AuthContext.js:50-63 | refreshAuth reading the value refreshAccessToken returns as the token: a decodable token is stored, held by the session with its payload, and the page stays |
| AuthContext.RefreshAuthIntendedKeepsToken | front/src/context/AuthContext.js:55-58 | on the same world, the corrected effect stores "a2", keeps the session with its payload and navigates nowhere |
| AuthContext.AuthProvider.Startup | front/src/context/AuthContext.js:30-47 | the provider's state and the window become those of StartupEffect |
| AuthContext.AuthProvider.RefreshAuth | front/src/context/AuthContext.js:50-63 | the provider's state and the window become those of RefreshAuthEffect |
| AuthContext.AuthProvider.RefreshAuthIntended | front/src/context/AuthContext.js:50-63 | the provider's state and the window become those of RefreshAuthIntendedEffect |
| Utils.ScrollState.HandleScroll | front/src/lib/utils.js:8-18 | the footer is hidden iff the page moved down and is past 50 pixels; never hidden at 50 or above the top; the last position becomes the current one |
| Utils.ScrollState.HandleNavBarScroll | front/src/lib/utils.js:20-29 | the flag is set iff the page moved up; the last position becomes the current one |
| Utils.ScrollTwiceShows | front/src/lib/utils.js:8-18 | two footer events at the same position always end with the footer shown |
| MessagesPage.MarkRead | front/src/app/messages/page.jsx:70-75 | same length; only the unread count can change; the selected conversation's count becomes 0; every other conversation is unchanged |
| MessagesPage.MarkReadIdempotent | front/src/app/messages/page.jsx:70-75 | marking read twice equals marking read once |
| MessagesPage.MarkReadRemovesBadges | front/src/app/messages/page.jsx:70-75 | marking read never increases the number of unread badges |
| MessagesPage.FindConversation | front/src/app/messages/page.jsx:77-80 | a result is the first conversation with the selected id; none iff no conversation has it |
| MessagesPage.Guard | front/src/app/messages/page.jsx:58-63 | a truthy user changes nothing; otherwise an error toast and a replace to /login?next=<encoded path>, nothing else changes |
| MessagesPage.Page.constructor | front/src/app/messages/page.jsx:66-68 | the first conversation is selected, or none when there is none; the draft is empty |
| MessagesPage.Page.MarkSelectedRead | front/src/app/messages/page.jsx:70-75 | the conversations become MarkRead of the old ones for the current selection; nothing else changes |
| MessagesPage.Page.Select | front/src/app/messages/page.jsx:130 | the clicked conversation becomes selected and is marked read; threads and draft unchanged |
| MessagesPage.Page.Type | front/src/app/messages/page.jsx:220 | the draft becomes the typed text; nothing else changes |
| MessagesPage.Page.SendMessage | front/src/app/messages/page.jsx:84-98 | a blank draft or a falsy selection changes nothing; otherwise the trimmed text is appended to the selected thread as a message from "me", and the draft is cleared |
| MessagesPage.Page.KeyDown | front/src/app/messages/page.jsx:221-226 | a key other than Enter without Shift changes nothing; Enter without Shift does what sendMessage does: a blank draft or no selection changes nothing, otherwise the trimmed draft is appended to the selected thread, every other thread is kept and the draft is cleared; the conversations and the selection never change |
| FollowedPage.OfType | front/src/app/followed/page.jsx:115 | keeps exactly the entries of the chosen type and nothing else |
| FollowedPage.OfTypeAppend | front/src/app/followed/page.jsx:115 | the filter distributes over concatenation, so the feed's order is kept |
| FollowedPage.Events | front/src/app/followed/page.jsx:113-116 | "all" shows the whole feed; any other filter shows OfType |
| FollowedPage.OfTypeAllMatch | front/src/app/followed/page.jsx:115 | when every entry has the type, the filter returns the feed unchanged |
| FollowedPage.ExplorerWiderThanMessages | front/src/app/followed/page.jsx:111 | every path on which the messages page highlights the explorer tab is highlighted here, and "/explorer" only here |
| FollowedPage.AthleteHref | front/src/app/followed/page.jsx:158 | the link is a truthy profile_url, else "#/athletes/" followed by the id as a string |
| FollowedPage.Avatar | front/src/app/followed/page.jsx:155-170 | a truthy first image, else the grey disc; with an image array it is the array's first element |
| FollowedPage.LegacyAvatar | front/src/app/followed/page.jsx:155-170 | without an image array the avatar is the first truthy of image1, image2 and image3, else the disc |
| FollowedPage.ActivityBadgeOnlyForPositiveCounts | front/src/app/followed/page.jsx:171 | no badge for a missing count; for a numeric count, a badge iff it is positive |
| FollowedPage.PositiveCases | front/src/app/followed/page.jsx:371 | a missing delta counts as a gain; a numeric delta is a gain iff it is at least 0 |
| FollowedPage.Page.LoadAthletes | front/src/app/followed/page.jsx:119-130 | the list becomes the loaded athletes, or empty on failure; loading ends either way |
| FollowedPage.LoadFailureShowsEmptyState | front/src/app/followed/page.jsx:143-150 | after a failed load, the empty-state message is shown |
| AthletesPage.AfterInitial | front/src/app/athletes/page.jsx:116-133 | loading ends; on success the items are the page's results, the offset their count, and more follow iff `next` is truthy; on failure no items and no more |
| AthletesPage.StartLoadMore | front/src/app/athletes/page.jsx:144 | only the fetching flag changes, and it is raised |
| AthletesPage.AfterLoadMore | front/src/app/athletes/page.jsx:145-154 | the flag drops; a page's results are appended and the offset grows by their count; a failure keeps items and offset and stops paging |
| AthletesPage.InitialEstablishesValid | front/src/app/athletes/page.jsx:116-133 | after the initial load, the offset equals the number of items shown |
| AthletesPage.LoadMorePreservesValid | front/src/app/athletes/page.jsx:137-158 | a load-more keeps offset equal to the number of items and never drops or reorders a shown item |
| AthletesPage.PlainListShowsPrefix | front/src/app/athletes/page.jsx:137-158 | against a server with a plain array, the items stay a prefix of the array, and more follow iff some are left |
| AthletesPage.PlainListFirstPage | front/src/app/athletes/page.jsx:116-133 | against the same server, the first load shows a prefix of the array, with more iff some are left |
| AthletesPage.StoppedStaysStopped | front/src/app/athletes/page.jsx:138-143 | once the sentinel is gone, no load-more can start |
| AthletesPage.Page.InitialLoad | front/src/app/athletes/page.jsx:116-133 | one getAthletesPage(12, 0); the page's state becomes AfterInitial of its outcome |
| AthletesPage.Page.LoadMore | front/src/app/athletes/page.jsx:137-158 | when the guard refuses, nothing is sent and nothing changes; otherwise one page at the current offset, and the state becomes AfterLoadMore of its outcome |
| ItemCard.Href | front/src/components/item-card.jsx:20 | a truthy profileUrl, else a truthy profile_url, else "#"; always truthy |
| ItemCard.KeepTruthy | front/src/components/item-card.jsx:23 | keeps exactly the truthy values: each kept value was in the list, each truthy value is kept |
| ItemCard.KeepTruthyAppend | front/src/components/item-card.jsx:23 | the filter distributes over concatenation, so the order is kept |
| ItemCard.Images | front/src/components/item-card.jsx:21-23 | a non-empty image array is used as it is; otherwise at most three truthy legacy images |
| ItemCard.LegacyImagesInOrder | front/src/components/item-card.jsx:21-23 | without an image array the images are the truthy ones of image1, image2, image3, in that order |
| ItemCard.ThreeSlots | front/src/components/item-card.jsx:23 | filtering the three legacy slots is filtering each slot in turn |
| ItemCard.IsCarousel | front/src/components/item-card.jsx:24 | a set isCarousel decides; else is_carousel; else whether there is any image |
| ItemCard.Subs | front/src/components/item-card.jsx:25-29 | a truthy `subscribers` object is used; otherwise one built from the legacy counts, each defaulting to 0 |
| ItemCard.Counts | front/src/components/item-card.jsx:101-111 | each displayed count is truthy or 0; with a truthy `subscribers` the counts are its `instagram`, `vb` and `youtube`, each `|| 0` |
| ItemCard.LegacyFacebookCount | front/src/components/item-card.jsx:25-29 | without `subscribers`, the three counts are the legacy Instagram, Facebook and YouTube fields, or 0 |
| AthleteProfile.Slots | front/src/components/athlete-profile.jsx:206-224 | four slots: images[0], images[1] or [0], images[2] or [0], images[3] or [1], each else the placeholder; all truthy |
| AthleteProfile.NoImagesAllPlaceholder | front/src/components/athlete-profile.jsx:206-224 | with no images, all four slots show the placeholder |
| AthleteProfile.SinglePhotoSlots | front/src/components/athlete-profile.jsx:206-224 | one photo fills the first three slots and the fourth shows the placeholder |
| AthleteProfile.FullSlots | front/src/components/athlete-profile.jsx:206-224 | four set photos each fill their own slot |
| AthleteProfile.CrumbPiece | front/src/components/athlete-profile.jsx:68-81 | a crumb is a link iff its href is truthy, and the link targets it; it is never a separator |
| AthleteProfile.RenderFrom | front/src/components/athlete-profile.jsx:66-88 | from crumb idx on: 2·n − 1 pieces, the crumbs at even positions and separators at odd ones |
| AthleteProfile.CountSeparatorsAlternating | front/src/components/athlete-profile.jsx:83-87 | in an alternating sequence, the number of separators is the number of odd positions |
| AthleteProfile.SeparatorsBetween | front/src/components/athlete-profile.jsx:66-88 | a trail of n crumbs renders 2n − 1 pieces, n − 1 of them separators, crumb i at position 2i |
| AthleteProfile.FollowLabel | front/src/components/athlete-profile.jsx:167 | "Suivi" iff the athlete is followed, else "Suivre" |
| LanguageCurrencyModal.Pick | front/src/components/language-currency-modal.jsx:58-59 | the profile's truthy value, else the user's, else the current selection when set, else the fallback; always truthy |
| LanguageCurrencyModal.Supported | front/src/components/language-currency-modal.jsx:63-64 | a supported code is kept and any other becomes the fallback |
| LanguageCurrencyModal.Resolve | front/src/components/language-currency-modal.jsx:56-64 | each preference is the first truthy of profile, context user, selection and default, lower-cased (language) or upper-cased (currency), kept when supported and otherwise "fr" / "EUR"; so both are always supported; it throws only when the profile is `null` or a picked value is not a string |
| LanguageCurrencyModal.ProfileLanguageWins | front/src/components/language-currency-modal.jsx:56-64 | a profile language that lower-cases to a supported one is selected, lower-cased |
| LanguageCurrencyModal.UnsupportedLanguageResets | front/src/components/language-currency-modal.jsx:56-64 | an unsupported profile language ("de") resets the selection to "fr" |
| LanguageCurrencyModal.Fallback | front/src/components/language-currency-modal.jsx:65-69 | after a failed fetch, the user's truthy language (lower-cased) and currency (upper-cased) replace the selections; others are kept |
| LanguageCurrencyModal.FallbackIsUnchecked | front/src/components/language-currency-modal.jsx:65-69 | the fallback selects an unsupported language ("de") as it is |
| LanguageCurrencyModal.OpenSelection | front/src/components/language-currency-modal.jsx:52-70 | a fetched profile that Resolve accepts gives Resolve's selection, always supported; a fetched profile on which Resolve throws, and a failed fetch, give Fallback |
| LanguageCurrencyModal.NumericLanguageFallsBack | front/src/components/language-currency-modal.jsx:57-68 | a profile whose language is a number makes the lower-casing throw, so the dialog takes Fallback |
| LanguageCurrencyModal.LanguageUpdate | front/src/components/language-currency-modal.jsx:36 | the body holds exactly the language and the time zone |
| LanguageCurrencyModal.CurrencyUpdate | front/src/components/language-currency-modal.jsx:45 | the body holds exactly the currency |
| LanguageCurrencyModal.SaveUpdate | front/src/components/language-currency-modal.jsx:88-92 | the body holds exactly the language, the currency and the time zone |
| LanguageCurrencyModal.Modal.OnOpen | front/src/components/language-currency-modal.jsx:52-70 | a closed dialog does nothing; an open one fetches the profile once and takes OpenSelection |
| LanguageCurrencyModal.Modal.SelectLanguage | front/src/components/language-currency-modal.jsx:32-40 | the language changes, the currency is kept, and one LanguageUpdate is sent, whatever its outcome |
| LanguageCurrencyModal.Modal.SelectCurrency | front/src/components/language-currency-modal.jsx:42-49 | the currency changes, the language is kept, and one CurrencyUpdate is sent, whatever its outcome |
| LanguageCurrencyModal.Modal.Save | front/src/components/language-currency-modal.jsx:85-99 | one SaveUpdate of the current selections is sent and the dialog closes on success and on failure |
| SettingsDialog.LoadedPhone | front/src/components/settings-dialog.jsx:216 | "" without a country code; otherwise the code, a space and the number |
| SettingsDialog.Entries | front/src/components/settings-dialog.jsx:218 | one `{value}` entry per URL, in order |
| SettingsDialog.Values | front/src/components/settings-dialog.jsx:242 | one value per entry, in order |
| SettingsDialog.LoadForm | front/src/components/settings-dialog.jsx:212-219 | the form is reset from the user: the trimmed name, the e-mail, the phone, the bio and country or "", and the URLs or one blank entry |
| SettingsDialog.WordsRejoin | front/src/components/settings-dialog.jsx:235-236 | the first word and the other words joined by a space give back the string |
| SettingsDialog.SubmitUpdate | front/src/components/settings-dialog.jsx:234-243 | the first name and the country code hold no space; the URLs, e-mail, bio and country are sent as in the form |
| SettingsDialog.NoSeparatorInParts | front/src/components/settings-dialog.jsx:235-240 | no piece of a split holds the separator |
| SettingsDialog.TrimEndDropsOneSpace | front/src/components/settings-dialog.jsx:213 | trimming a blank-free word followed by one space gives the word |
| SettingsDialog.PhoneRoundTrip | front/src/components/settings-dialog.jsx:216-240 | a loaded phone whose country code has no space is saved back as the same code and number |
| SettingsDialog.TrimmedName | front/src/components/settings-dialog.jsx:213 | the loaded name is "first last" without the trailing space when the last name is empty |
| SettingsDialog.NameRoundTrip | front/src/components/settings-dialog.jsx:213-236 | a blank-free first name and a last name are saved back unchanged |
| SettingsDialog.UrlsRoundTrip | front/src/components/settings-dialog.jsx:218-242 | stored URLs are saved back as they were; with none stored, one blank URL is submitted |
| SettingsDialog.MissingBioBlocksSave | front/src/components/settings-dialog.jsx:175-182 | a user without a bio loads a form the schema refuses |
| SettingsDialog.MissingUrlsNeedBlankUrl | front/src/components/settings-dialog.jsx:175-182 | a user without URLs can save the loaded form only if the blank string passes the URL check |
| ProfileForm.Loaded | front/src/components/forms/profile-form.jsx:58-66 | each field takes the user's truthy value or ""; the country code defaults to "+33"; the raw address is cleared |
| ProfileForm.Payload | front/src/components/forms/profile-form.jsx:80-89 | the six profile fields as typed, bio or ""; raw_address is present iff it is truthy |
| ProfileForm.LoadEffect | front/src/components/forms/profile-form.jsx:52-74 | a loaded user fills the values, the address text and the compared e-mail; a failure only shows "Impossible de charger votre profil." |
| ProfileForm.Failed | front/src/components/forms/profile-form.jsx:102-106 | loading ends, the error's message (or "Échec de la mise à jour.") is toasted, nothing else changes |
| ProfileForm.SubmitEffect | front/src/components/forms/profile-form.jsx:76-107 | exactly one toast and loading ends; a successful update continues as Refreshed on the world it left, a failed one is Failed with its error; a success clears the typed address and announces the verification mail iff the e-mail changed; a failure keeps the form |
| ProfileForm.Refreshed | front/src/components/forms/profile-form.jsx:92-101 | the toast is a success iff the refetch gives a non-null profile, and then the verified address shown is the profile's `address` or ""; the world is the refetch's plus that one toast; a failed refetch, or a null profile, is Failed; a success clears the typed address and announces the verification mail iff the e-mail changed |
| ProfileForm.RefreshedIgnoresLoading | front/src/components/forms/profile-form.jsx:92-106 | the refresh's outcome does not depend on the loading flag |
| ProfileForm.FailedIgnoresLoading | front/src/components/forms/profile-form.jsx:102-106 | the failure's outcome does not depend on the loading flag |
| ProfileForm.FailedUpdateKeepsForm | front/src/components/forms/profile-form.jsx:90-106 | when the update fails, the values, address and compared e-mail stay, and the toast is an error |
| ProfileForm.SuccessfulUpdateReported | front/src/components/forms/profile-form.jsx:76-101 | an update and a refetch that both succeed end in a success toast, with the refetched address shown |
| ProfileForm.Form.Load | front/src/components/forms/profile-form.jsx:52-74 | one profile fetch; the state and the window become those of LoadEffect |
| ProfileForm.Form.Submit | front/src/components/forms/profile-form.jsx:76-107 | values the schema refuses change nothing; accepted ones lead to SubmitEffect |
| ProfileForm.Form.Refresh | front/src/components/forms/profile-form.jsx:92-101 | the state and the window become those of Refreshed |
| ProfileForm.Form.Fail | front/src/components/forms/profile-form.jsx:102-106 | the state and the window become those of Failed |
| OnboardingForm.Optional | front/src/components/forms/onboarding-form.jsx:27-37 | an absent field passes; a present one passes iff its rule holds, else one issue with the rule's message |
| OnboardingForm.IssuesEmptyIffAcceptable | front/src/components/forms/onboarding-form.jsx:27-37 | no issue iff the links are URLs, the bio is at most 300 characters, the address at most 255, and the gender one of three |
| OnboardingForm.EmptyFormAccepted | front/src/components/forms/onboarding-form.jsx:27-37 | a form with no field defined passes |
| OnboardingForm.UntouchedFormRefused | front/src/components/forms/onboarding-form.jsx:27-37 | when the URL check rejects "", a form whose registered inputs are all empty fails with exactly the two picture-link issues |
| OnboardingForm.Payload | front/src/components/forms/onboarding-form.jsx:70 | exactly the parsed fields are sent, each as a string |
| OnboardingForm.LoadEffect | front/src/components/forms/onboarding-form.jsx:54-65 | a loaded user is kept; a failure toasts "Impossible de charger les informations de l'utilisateur." |
| OnboardingForm.NoWelcomeAfterFailedLoad | front/src/components/forms/onboarding-form.jsx:83 | after a failed load no welcome is rendered |
| OnboardingForm.SubmitEffect | front/src/components/forms/onboarding-form.jsx:67-78 | loading ends; a success toasts "Votre profil a été mis à jour !" and pushes "/"; a failure toasts "Erreur lors de la mise à jour du profil." and does not navigate |
| OnboardingForm.Form.Load | front/src/components/forms/onboarding-form.jsx:54-65 | one profile fetch; the state and the window become those of LoadEffect |
| OnboardingForm.Form.Submit | front/src/components/forms/onboarding-form.jsx:67-78 | values with issues change nothing; others lead to SubmitEffect |
| Validators.FindUpper | front/src/components/forms/register-form.jsx:27 | the search finds an upper-case letter iff the password has one |
| Validators.FindDigit | front/src/components/forms/register-form.jsx:28 | the search finds a digit iff the password has one |
| Validators.FindSpecial | front/src/components/forms/register-form.jsx:29 | the search finds one of @$!%*?& iff the password has one |
| Validators.Broken | front/src/components/forms/register-form.jsx:24-29 | each of the four rules is listed iff it is broken |
| Validators.BrokenEmptyIffStrong | front/src/components/forms/register-form.jsx:24-29 | no rule is broken iff the password is strong |
| Validators.PasswordIssues | front/src/components/forms/register-form.jsx:24-29 | one issue per broken rule, in order, with the schema's wording; none iff the password is strong |
| Validators.IssuesOf | front/src/components/forms/change-password-form.jsx:15-20 | one issue per listed rule, on the named field, with its wording |
| Validators.MinIssues | front/src/components/forms/register-form.jsx:19-23 | a missing field is "Required"; a present one has no issue iff it is long enough, else the field's message |
| Validators.EmailIssues | front/src/components/forms/register-form.jsx:21 | no issue iff the address is present and passes the e-mail check |
| Validators.PresentIssues | front/src/components/forms/register-form.jsx:30 | no issue iff the field is present |
| Validators.PolicyIssues | front/src/components/forms/register-form.jsx:24-29 | no issue iff the password is present and strong; a present one gets PasswordIssues |
| Validators.OnFieldsAppend | front/src/components/forms/register-form.jsx:17-35 | issues kept on named fields stay on them when lists are joined |
| RegisterForm.Issues | front/src/components/forms/register-form.jsx:17-35 | with every field filled: the mismatch is the last issue when the passwords differ, and with equal passwords the issues are the field issues alone |
| RegisterForm.IssuesEmptyIffAcceptable | front/src/components/forms/register-form.jsx:17-35 | no issue iff every field satisfies its rule and the passwords match |
| RegisterForm.IssuesOnFormFields | front/src/components/forms/register-form.jsx:17-35 | every issue names one of the seven fields |
| RegisterForm.IncompleteSkipsMismatch | front/src/components/forms/register-form.jsx:32-35 | with a missing field the mismatch is never reported, and a missing confirmation is reported as required |
| RegisterForm.Payload | front/src/components/forms/register-form.jsx:53-60 | exactly six keys carry the typed values; confirm_password is not sent |
| RegisterForm.SubmitEffect | front/src/components/forms/register-form.jsx:50-72 | one registration request; /login?registered=true is pushed iff it succeeds; no toast and no storage change |
| RegisterForm.Form.Submit | front/src/components/register-form.jsx:50-72 | values with issues change nothing; others lead to SubmitEffect and loading ends |
| ChangePasswordForm.Issues | front/src/components/forms/change-password-form.jsx:13-25 | the mismatch is the last issue iff the new password and its confirmation differ |
| ChangePasswordForm.IssuesEmptyIffAcceptable | front/src/components/forms/change-password-form.jsx:13-25 | no issue iff the old password has 6 characters, the new one is strong and the confirmation matches |
| ChangePasswordForm.BlankRefused | front/src/components/forms/change-password-form.jsx:13-28 | the blank starting form gets exactly five issues: the old password and the four rules |
| ChangePasswordForm.SubmitEffect | front/src/components/forms/change-password-form.jsx:31-42 | exactly one toast and no navigation, on the world changePassword leaves; a success toasts "Mot de passe mis à jour." and resets the fields; a failure toasts the error's message, or "Échec du changement de mot de passe" when it is empty, and keeps the fields; loading ends false |
| ChangePasswordForm.SignedOutIsRefused | front/src/components/forms/change-password-form.jsx:31-42 | with no token stored nothing is sent and "User not authenticated" is toasted |
| ChangePasswordForm.Form.Submit | front/src/components/forms/change-password-form.jsx:31-42 | values with issues change nothing; others lead to SubmitEffect |
| ResetPasswordConfirmForm.Issues | front/src/components/forms/reset-password-confirm-form.jsx:17-25 | two present, different passwords end with the mismatch |
| ResetPasswordConfirmForm.IssuesEmptyIff | front/src/components/forms/reset-password-confirm-form.jsx:17-25 | no issue iff both passwords are present, equal and at least 8 characters |
| ResetPasswordConfirmForm.SubmitEffect | front/src/components/forms/reset-password-confirm-form.jsx:42-60 | without a token only the missing-token message is set; otherwise one confirmation request, and the success message is shown iff it succeeds |
| ResetPasswordConfirmForm.Form.Submit | front/src/components/forms/reset-password-confirm-form.jsx:42-60 | values with issues change nothing; others lead to SubmitEffect |
| ResetPasswordForm.Issues | front/src/components/reset-password-form.jsx:15-17 | no issue iff the address is present and valid |
| ResetPasswordForm.SubmitEffect | front/src/components/reset-password-form.jsx:31-45 | one reset request; the same confirmation message on both outcomes |
| ResetPasswordForm.SameWhateverTheServerSays | front/src/components/reset-password-form.jsx:36-41 | two servers answering differently leave the same state and the same visible world |
| ResetPasswordForm.Form.Submit | front/src/components/reset-password-form.jsx:31-45 | values with issues change nothing; others lead to SubmitEffect |
| ResetPasswordToastForm.Issues | front/src/components/forms/reset-password-form.jsx:16-18 | no issue iff the address is present and valid |
| ResetPasswordToastForm.SubmitEffect | front/src/components/forms/reset-password-form.jsx:31-47 | one reset request, then the same success toast on both outcomes |
| ResetPasswordToastForm.SameWhateverTheServerSays | front/src/components/forms/reset-password-form.jsx:36-43 | two servers answering differently leave the same visible world |
| ResetPasswordToastForm.Form.Submit | front/src/components/forms/reset-password-form.jsx:31-47 | values with issues change nothing; others lead to SubmitEffect and loading ends |
| LoginForm.Issues | front/src/components/forms/login-form.jsx:26-29 | no issue iff the e-mail is valid and the password has at least 8 characters |
| LoginForm.OriginEffect | front/src/components/forms/login-form.jsx:53-59 | origin=logout toasts "Déconnexion réussie !" and replaces the page with /login; any other origin changes nothing |
| LoginForm.SubmitEffect | front/src/components/forms/login-form.jsx:61-76 | one login request and one toast, on the world login leaves; a success stores both returned tokens, toasts "Connexion réussie !" and pushes "/"; a failure toasts the error's message, or "Identifiants invalides." when it is empty, and keeps storage and page |
| LoginForm.RefusedLoginMessage | front/src/components/forms/login-form.jsx:68-71 | a refusal whose body has no message toasts "Login failed", not the form's fallback |
| LoginForm.Form.OnOrigin | front/src/components/forms/login-form.jsx:53-59 | the window becomes OriginEffect of the old one |
| LoginForm.Form.Submit | front/src/components/forms/login-form.jsx:61-76 | values with issues change nothing; others lead to SubmitEffect |
| DeleteAccount.DeleteEffect | front/src/components/forms/delete-account.jsx:13-29 | without "SUPPRIMER" only an error toast; otherwise deleteAccount, then a success toast and logout, or an error toast with the message or "Échec de la suppression" |
| DeleteAccount.GuardSendsNothing | front/src/components/forms/delete-account.jsx:14-17 | without the confirmation word nothing is sent, storage is kept, and the page does not move |
| DeleteAccount.LogoutOnlyAfterDeletion | front/src/components/forms/delete-account.jsx:19-25 | the page leaves for the logout target iff the deletion succeeded, and then both tokens are gone; after a failure storage changes only in the access token |
| DeleteAccount.Box.Type | front/src/components/forms/delete-account.jsx:10 | only the typed confirmation changes |
| DeleteAccount.Box.OnDelete | front/src/components/forms/delete-account.jsx:13-29 | the state and the window become those of DeleteEffect |
| VerifyEmail.Report | front/src/app/verify-email/page.jsx:30-38 | success iff verified; "Jeton invalide ou expiré." iff the error's status is 400; otherwise the server-trouble message |
| VerifyEmail.VerifyEffect | front/src/app/verify-email/page.jsx:21-44 | without a token an error toast and /login; otherwise one verification; always exactly one toast and a push to /login; storage kept |
| VerifyEmail.NoTokenNoRequest | front/src/app/verify-email/page.jsx:22-26 | without a token nothing is sent |
| VerifyEmail.Classification | front/src/app/verify-email/page.jsx:28-40 | success iff the server answers 2xx; a 400 with a body that is not null is a bad token; a network failure or any other status is server trouble |
| VerifyEmail.Page.OnToken | front/src/app/verify-email/page.jsx:21-44 | the window becomes VerifyEffect of the old one |
| Permissions.OwnerViewTable | back/auth_service/api/permissions.py:9-77 | safe methods pass the view check for both owner classes; others pass iff the user is authenticated |
| Permissions.OwnerObjectTable | back/auth_service/api/permissions.py:9-40 | the object check passes iff the method is safe, the user is staff, or the object's user_id is the user's id |
| Permissions.AthleteAndCompanyAgree | back/auth_service/api/permissions.py:9-77 | the athlete and company classes decide every request identically |
| Permissions.OwnerWrites | back/auth_service/api/permissions.py:9-40 | a write is granted to an authenticated user iff staff or owner, and never to an unauthenticated one |
| Permissions.SelfReadsNeedAuthentication | back/auth_service/api/permissions.py:80-99 | a read is granted by IsSelfOrAdmin iff the user is authenticated, while the owner classes grant it to anyone |
| Permissions.SelfWrites | back/auth_service/api/permissions.py:80-99 | a write is granted iff the user is staff or is the object; an anonymous non-staff user never writes an object with an id |
| Models.SetDefault | back/auth_service/api/models.py:33-37 | the key holds its old value if present, else the default; other keys unchanged |
| Models.UserExtra | back/auth_service/api/models.py:33-37 | is_staff, is_active and is_verified default to false; other extra fields unchanged |
| Models.SuperuserExtra | back/auth_service/api/models.py:58-61 | is_staff, is_superuser, is_verified and is_active default to true; other extra fields unchanged |
| Models.SetDefaultExpected | back/auth_service/api/models.py:33-37 | a setdefault on a model field neither adds nor removes an unknown keyword |
| Models.SuperuserExtraExpected | back/auth_service/api/models.py:33-61 | the flag defaults of both managers neither add nor remove an unknown keyword |
| Models.ModelDefaults | back/auth_service/api/models.py:74-143 | every model field, date_joined included, and only those, holds its declared default |
| Models.Instance | back/auth_service/api/models.py:40-47 | extra fields are kept (the password aside); the e-mail is normalised unless given as extra; the password is hashed; a fresh verification token is set unless given |
| Models.Overlay | back/auth_service/api/models.py:40-45 | extra values win over named values, which win over defaults |
| Models.NewUser | back/auth_service/api/models.py:20-50 | it raises iff the e-mail is blank (the missing-email error) or some keyword is no model field (TypeError); otherwise the user is the instance built with create_user's flag defaults, and its first save stamps date_joined with the clock |
| Models.NewUserRaises | back/auth_service/api/models.py:40-45 | with an e-mail, any keyword that is no model field raises TypeError |
| Models.UnknownKeywordRaises | back/auth_service/api/models.py:40-45 | create_user(email, foo=1) raises TypeError |
| Models.SavedKeeps | back/auth_service/api/models.py:40-48 | the saved user has every field of the built instance except date_joined, with the same value |
| Models.RegistrationPending | back/auth_service/api/models.py:20-50 | a user created without flags or unknown keywords is not active, not verified, not staff, and has a verification token |
| Models.InstanceDefaults | back/auth_service/api/models.py:40-45 | a new instance has every model field, date_joined included, and each field the caller does not set holds its default |
| Models.CallerFlagsWin | back/auth_service/api/models.py:33-37 | a flag passed by the caller is kept when the user is created |
| Models.SuperuserDefaults | back/auth_service/api/models.py:52-65 | a superuser's four flags are true unless passed explicitly |
| Models.TokenExpiry | back/auth_service/api/models.py:135-139 | the expiry is later than now |
| Models.WithToken | back/auth_service/api/models.py:163-169 | a new token and an expiry 24 hours ahead are set; no other field changes |
| Models.Activated | back/auth_service/api/models.py:171-179 | token and expiry are cleared and the user is active and verified; no other field changes |
| Models.ActivationIdempotent | back/auth_service/api/models.py:171-179 | clearing the token twice equals clearing it once |
| Models.FreshTokenThenActivate | back/auth_service/api/models.py:163-179 | a new token followed by clearing equals clearing alone |
| Models.ExpiriesAgree | back/auth_service/api/models.py:135-169 | generate_verification_token sets the same expiry as get_token_expiry |
| Models.User.Save | back/auth_service/api/models.py:169 | the fields are kept and appended to the save log |
| Models.User.Insert | back/auth_service/api/models.py:49 | the first save stamps date_joined with the clock, changes nothing else and is logged |
| Models.User.SetPassword | back/auth_service/api/models.py:47 | only the password field changes, to the hash; nothing is saved |
| Models.User.GenerateVerificationToken | back/auth_service/api/models.py:163-169 | the fields become WithToken of the old ones and are saved once |
| Models.User.ClearVerificationToken | back/auth_service/api/models.py:171-179 | the fields become Activated of the old ones and are saved once |
| Models.Manager.CreateUser | back/auth_service/api/models.py:20-50 | a blank e-mail or an unknown keyword raises, with NewUser's error, and creates nothing; otherwise one fresh user holding NewUser's fields, saved once |
| Models.Manager.CreateSuperuser | back/auth_service/api/models.py:52-65 | the same, with the superuser flag defaults, which add no unknown keyword |
| Serializers.FieldError | back/auth_service/api/serializers.py:62-69 | a missing field is required; one that is blank once stripped may not be blank; a filled new password gets the policy's messages on its stripped value |
| Serializers.Strip | back/auth_service/api/serializers.py:62-64 | the result is no longer than the value; empty iff the value is all whitespace; otherwise it neither starts nor ends with whitespace |
| Serializers.StripUnchanged | back/auth_service/api/serializers.py:62-64 | a value without whitespace at its edges is kept as it is |
| Serializers.StripPadded | back/auth_service/api/serializers.py:62-64 | one space either side of such a value is removed |
| Serializers.FieldErrors | back/auth_service/api/serializers.py:62-69 | exactly the declared fields that fail appear, each with its messages |
| Serializers.Declared | back/auth_service/api/serializers.py:62-64 | the validated data keeps only the three declared fields, each with its value stripped |
| Serializers.Validate | back/auth_service/api/serializers.py:71-78 | valid iff the new password equals its confirmation; the data passes unchanged; otherwise the mismatch on new_password |
| Serializers.IsValidIffAcceptable | back/auth_service/api/serializers.py:62-78 | valid iff all three are non-blank once stripped, the policy passes on the stripped new password and the stripped passwords match; then the data is the three fields, stripped |
| Serializers.MissingFieldReported | back/auth_service/api/serializers.py:62-64 | a missing field is reported under its own name as required |
| Serializers.BlankFieldReported | back/auth_service/api/serializers.py:62-64 | a declared field made only of whitespace is reported under its own name as blank |
| Serializers.FieldPasses | back/auth_service/api/serializers.py:62-69 | a declared field passes iff it is non-blank once stripped and, for new_password, the policy accepts the stripped value |
| Serializers.MismatchReported | back/auth_service/api/serializers.py:71-78 | a filled, policy-passing payload whose stripped passwords differ fails with exactly "Credentials do not match." on new_password |
| Serializers.Updated | back/auth_service/api/serializers.py:47-53 | every validated key except password_hash is assigned; every other field is as it was |
| Serializers.UpdateIdempotent | back/auth_service/api/serializers.py:47-53 | updating twice with the same data equals updating once |
| Serializers.Update | back/auth_service/api/serializers.py:47-53 | the loop leaves the fields equal to Updated of the old ones and saves once |
| Serializers.Restrict | back/auth_service/api/serializers.py:50-51 | the part of the data on the keys visited so far |
| Serializers.RestrictStep | back/auth_service/api/serializers.py:50-51 | visiting one more key assigns exactly that key |
| Serializers.ExtraArgs | back/auth_service/api/serializers.py:44 | every validated key but e-mail, names and password goes to create_user as an extra field |
| Serializers.Create | back/auth_service/api/serializers.py:42-45 | a blank e-mail or an unknown keyword raises and creates nothing; otherwise create_user's user from the validated data |
| Serializers.ModelDataExpected | back/auth_service/api/serializers.py:11-45 | data keyed by model fields never carries an unknown keyword, so create raises only for a blank e-mail |
| Serializers.CreateInheritsFlagDefaults | back/auth_service/api/serializers.py:42-45 | a flag absent from the data takes create_user's default, false |
| Serializers.CreatedWithoutPassword | back/auth_service/api/serializers.py:40-45 | a user created without a password matches no password |
| Views.ErrorsBody | back/auth_service/api/views.py:62 | the error body has exactly the erroneous fields, each with its list of messages |
| Views.Messages | back/auth_service/api/views.py:62 | one JSON string per message, in order |
| Views.PostEffect | back/auth_service/api/views.py:46-62 | invalid data gives 400 with the serializer's errors; valid data with a wrong old password gives 400 with the wrong-password body; the answer is 200 iff the password changes, to the hash of the stripped new one; otherwise the fields are unchanged |
| Views.SuccessfulChange | back/auth_service/api/views.py:56-61 | after a change the stripped new password matches and no other field changed |
| Views.PaddedPasswordAccepted | back/auth_service/api/views.py:46-61 | a new password " Abcdef1! " with confirmation "Abcdef1!" and a matching old password gives 200 and sets "Abcdef1!" |
| Views.RefusedKeepsPassword | back/auth_service/api/views.py:51-55 | whenever the password does not change, the answer is 400 and every password matches exactly as before |
| Views.ValidationComesFirst | back/auth_service/api/views.py:48-62 | a wrong old password with no new_password is answered with the serializer's error body, which names new_password |
| Views.Post | back/auth_service/api/views.py:46-62 | the user's fields and the answer are PostEffect's; one save iff the password changed |

## Left out

- Concurrency and React scheduling. Each event handler and effect runs to
  completion as one step, and the `mounted` guards against updates after
  unmount are not modelled.
- Networking and HTTP. The server is a scripted list of replies.
  `apiClient.js` (the axios wrapper) is not part of this model.
- External code is given as parameters:
  - JWT decoding;
  - the zod e-mail and URL checks;
  - Django's password hashing and `validate_password`;
  - `normalize_email`;
  - uuid generation;
  - the clock.
- `updatePreferences` and `getFollowedAthletes` are imported from
  `userApi.js`, which does not export them. Their outcomes are parameters of
  the handlers that call them; the language dialog records the bodies it
  would send.
- The settings dialog's submit calls `updateUserProfile` imported from
  `api.js`, which does not define it. Only the mapping from the user to the
  form and from the form to the update is modelled, not the call.
- `registerUser`, `resetPassword` and `confirmPasswordReset` in `userApi.js`
  duplicate the `api.js` versions against another base URL. They are not
  modelled twice.
- Floating-point formatting is not modelled: `safeFormatPrice`,
  `formatNumber`, `formatPriceEUR` and the followers bar width. Neither are
  `cn`, the map widgets, UI wrappers, presentation-only pages, `seed.py` and
  the configuration.
- Permissions.AthleteHasPermission and the other permission decisions carry no
  `ensures` of their own. What they decide is stated by the lemmas about them.
- AthletesPage.AfterInitial: a `results` that is truthy but not an array is
  treated as a failed load (no items, no more). The page
  (front/src/app/athletes/page.jsx:120-124) stores such a value as its items
  and takes its `.length` as the offset. JavaScript's `.length` of strings and
  objects is not modelled.
- AthletesPage.AfterLoadMore: a `results` that is truthy but not an array
  stops paging and keeps the items, where the page
  (front/src/app/athletes/page.jsx:147-149) spreads it into the list. The
  reason is the same.
- Numbers are integers only. `Json.JNum` holds an `int`, and
  `Js.StringToNumber` reads only optional-sign decimal integers. A fractional
  `exp`, delta or follower count, or a string such as "1.5", is not
  represented.
- Models.Manager.CreateUser never raises `IntegrityError`. Apart from the
  blank e-mail and the unknown keywords it states, it always saves the user.
  The unique constraints on `email`, `phone_number` and `verification_token`
  (back/auth_service/api/models.py:75, 82, 125) are enforced by the database,
  and the error a duplicate value raises there is not modelled.
- Serializers.FieldError: payload values are strings. DRF's `CharField`
  coercion of numbers and its rejection of booleans, lists and objects
  ("Not a valid string.") are not modelled.
- String lengths and case mapping are not JavaScript's. The model counts a
  string's length in characters, while JavaScript's `.length` (used by the
  zod `min`/`max` checks and the form validators) counts UTF-16 code units,
  so a character outside the Basic Multilingual Plane counts once here and
  twice there. `Js.LowerChar` and `Js.UpperChar` map ASCII letters only;
  JavaScript's `toLowerCase`/`toUpperCase` apply full Unicode case mapping
  (for instance "uſd" upper-cases to "USD").
- Models.NewUser: the TypeError for an unknown keyword carries a fixed message
  without the offending names, and a keyword naming a settable property of
  the model rather than a field (Django accepts those) counts as unknown.
- SettingsDialog: `Js.StrOrNull` renders a missing value as "null" for both a
  `null` and an `undefined` field. JavaScript prints "undefined" for a field
  that is absent from the profile, which the model does not tell apart.
- Rendering is modelled only where a page decides something: which badge,
  slot, link or message is shown. Markup and styling are left out.

## Findings

| source | as written | input that shows it | evidently intended | confidence | as-written member | corrected member |
|---|---|---|---|---|---|---|
| front/src/context/AuthContext.js:55-58 | `refreshAuth` reads `.access` of the value returned by `refreshAccessToken`, which (front/src/lib/api.js:169) is already the token string. So it stores "undefined", decoding it throws, and the user is logged out and sent to /login | a refresh token "r1" stored and the server answering 200 `{"access": "a2"}` (`AuthContext.RefreshableWorld`) | store and decode the returned token "a2" and keep the session | not executed | AuthContext.RefreshAuthLosesToken | AuthContext.RefreshAuthIntendedKeepsToken |
