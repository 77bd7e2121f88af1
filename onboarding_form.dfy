/**
 * The onboarding form (`front/src/components/forms/onboarding-form.jsx`):
 * optional profile details, checked by `profileSchema`, sent as they are to
 * `updateProfile`, after which the user is welcomed to the home page.
 */
module OnboardingForm {
  import opened Js
  import opened Browser
  import opened Validators
  import Api
  import ApiClient

  /**
   * The parsed form values: each defined field of the schema (the two picture
   * links, bio, date of birth, gender, address, country, language and time
   * zone) with the text it holds; undefined fields are absent.
   */
  type Values = map<string, string>

  const Genders := ["male", "female", "non-binary"]

  const LoadFailure := "Impossible de charger les informations de l'utilisateur."
  const Updated := "Votre profil a été mis à jour !"
  const UpdateFailure := "Erreur lors de la mise à jour du profil."
  const BadLink := "Lien d'image invalide"
  const LongBio := "La bio ne peut pas dépasser 300 caractères"
  const LongAddress := "L'adresse est trop longue"

  /** The schema library's wording for a value outside an enumeration. */
  function EnumMessage(received: string): string
  {
    "Invalid enum value. Expected 'male' | 'female' | 'non-binary', received '" + received + "'"
  }

  /** `.optional()` on a rule: an undefined field passes, a defined one must satisfy `ok`. */
  function Optional(v: Values, k: string, ok: string -> bool, message: string -> string): (r: seq<Issue>)
    ensures r == [] <==> (k in v ==> ok(v[k]))
    ensures r != [] ==> r == [Issue(k, message(v[k]))]
  {
    if k in v && !ok(v[k]) then [Issue(k, message(v[k]))] else []
  }

  /** `profileSchema`: the two picture links must be URLs, the bio at most 300 and the address at most 255 characters, the gender one of three. */
  function Issues(v: Values, isUrl: string -> bool): seq<Issue>
  {
    Optional(v, "profile_picture_url", isUrl, _ => BadLink)
    + Optional(v, "cover_photo_url", isUrl, _ => BadLink)
    + Optional(v, "bio", s => |s| <= 300, _ => LongBio)
    + Optional(v, "gender", s => s in Genders, EnumMessage)
    + Optional(v, "address", s => |s| <= 255, _ => LongAddress)
  }

  /** What the schema means; the date of birth, country, language and time zone are free text. */
  predicate Acceptable(v: Values, isUrl: string -> bool)
  {
    ("profile_picture_url" in v ==> isUrl(v["profile_picture_url"]))
    && ("cover_photo_url" in v ==> isUrl(v["cover_photo_url"]))
    && ("bio" in v ==> |v["bio"]| <= 300)
    && ("gender" in v ==> v["gender"] in Genders)
    && ("address" in v ==> |v["address"]| <= 255)
  }

  lemma IssuesEmptyIffAcceptable(v: Values, isUrl: string -> bool)
    ensures Issues(v, isUrl) == [] <==> Acceptable(v, isUrl)
  {
    var a := Optional(v, "profile_picture_url", isUrl, _ => BadLink);
    var b := Optional(v, "cover_photo_url", isUrl, _ => BadLink);
    var c := Optional(v, "bio", s => |s| <= 300, _ => LongBio);
    var d := Optional(v, "gender", s => s in Genders, EnumMessage);
    var e := Optional(v, "address", s => |s| <= 255, _ => LongAddress);
    assert Issues(v, isUrl) == a + b + c + d + e;
  }

  /** An undefined field never fails, so the empty form passes. */
  lemma EmptyFormAccepted(isUrl: string -> bool)
    ensures Issues(map[], isUrl) == []
  {
    IssuesEmptyIffAcceptable(map[], isUrl);
  }

  /**
   * The values of a form nobody typed in: the five registered inputs hold
   * the empty string, the four selects were never set.
   */
  const Untouched: Values := map["profile_picture_url" := "", "cover_photo_url" := "", "bio" := "", "date_of_birth" := "", "address" := ""]

  /** An untouched form is refused on both picture links, since an empty string is no URL. */
  lemma UntouchedFormRefused(isUrl: string -> bool)
    requires !isUrl("")
    ensures Issues(Untouched, isUrl) == [Issue("profile_picture_url", BadLink), Issue("cover_photo_url", BadLink)]
  {
  }

  /** The body of `updateProfile`: the parsed values, unchanged, each as a JSON string. */
  function Payload(v: Values): (p: map<string, Json>)
    ensures p.Keys == v.Keys
    ensures forall k :: k in v ==> p[k] == JStr(v[k])
  {
    map k | k in v :: JStr(v[k])
  }

  /** The form's state: the loading flag and the user loaded on mount (`null` until then). */
  datatype State = State(loading: bool, user: Json)

  /** The welcome header is rendered only once a user has been loaded. */
  predicate WelcomeShown(s: State)
  {
    Truthy(Some(s.user))
  }

  /** The mount effect, once `fetchUserProfile()` has settled. */
  function LoadEffect(s: State, w: World, fetched: Result<Json>): (out: (State, World))
    ensures fetched.Ok? ==> out == (s.(user := fetched.value), w)
    ensures fetched.Err? ==> out == (s, ShowToast(w, Failure(LoadFailure)))
  {
    if fetched.Ok? then (s.(user := fetched.value), w) else (s, ShowToast(w, Failure(LoadFailure)))
  }

  /** A failed load leaves the user `null`, so no welcome is shown. */
  lemma NoWelcomeAfterFailedLoad(w: World, e: Error)
    ensures !WelcomeShown(LoadEffect(State(false, JNull), w, Err(e)).0)
  {
  }

  /**
   * `onSubmit` with values the schema accepted: success announces the update
   * and goes to the home page, failure shows a fixed error and stays.
   */
  function SubmitEffect(s: State, w: World, v: Values): (out: (State, World))
    ensures out.0 == s.(loading := false)
    ensures Api.UpdateProfile(w, JObj(Payload(v))).1.Ok? ==>
              out.1 == Navigate(ShowToast(Api.UpdateProfile(w, JObj(Payload(v))).0, Success(Updated)), Push("/"))
    ensures Api.UpdateProfile(w, JObj(Payload(v))).1.Err? ==>
              out.1 == ShowToast(Api.UpdateProfile(w, JObj(Payload(v))).0, Failure(UpdateFailure))
    ensures Api.UpdateProfile(w, JObj(Payload(v))).1.Err? ==> out.1.nav == w.nav
  {
    var (w1, r) := Api.UpdateProfile(w, JObj(Payload(v)));
    if r.Ok? then (s.(loading := false), Navigate(ShowToast(w1, Success(Updated)), Push("/")))
    else (s.(loading := false), ShowToast(w1, Failure(UpdateFailure)))
  }

  class Form {
    const client: ApiClient.Client
    var loading: bool
    var user: Json

    function Current(): State
      reads this
    {
      State(loading, user)
    }

    constructor (client: ApiClient.Client)
      ensures this.client == client && Current() == State(false, JNull)
    {
      this.client := client;
      loading := false;
      user := JNull;
    }

    method Load() returns (fetched: Result<Json>)
      modifies this, client.win
      ensures fetched == Api.FetchUserProfile(old(client.win.State())).1
      ensures (Current(), client.win.State()) == LoadEffect(old(Current()), Api.FetchUserProfile(old(client.win.State())).0, fetched)
    {
      fetched := client.FetchUserProfile();
      if fetched.Ok? {
        user := fetched.value;
      } else {
        client.win.Notify(Failure(LoadFailure));
      }
    }

    method Submit(v: Values, isUrl: string -> bool) returns (issues: seq<Issue>)
      modifies this, client.win
      ensures issues == Issues(v, isUrl)
      ensures issues != [] ==> Current() == old(Current()) && client.win.State() == old(client.win.State())
      ensures issues == [] ==> (Current(), client.win.State()) == SubmitEffect(old(Current()), old(client.win.State()), v)
    {
      issues := Issues(v, isUrl);
      if issues != [] {
        return;
      }
      loading := true;
      var r := client.UpdateProfile(JObj(Payload(v)));
      if r.Ok? {
        client.win.Notify(Success(Updated));
        client.win.Go(Push("/"));
      } else {
        client.win.Notify(Failure(UpdateFailure));
      }
      loading := false;
    }
  }
}
