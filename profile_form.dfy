/**
 * The profile form (`front/src/components/forms/profile-form.jsx`): the
 * validation schema, the values loaded from the user's profile, the update
 * payload, and what a submission does to the form and the page (toasts,
 * the displayed address, the e-mail the form compares against).
 */
module ProfileForm {
  import opened Js
  import opened Browser
  import Api
  import ApiClient

  /** The form's values, as JavaScript values: the schema decides whether they are strings. */
  datatype Values = Values(
    firstName: Json,
    lastName: Json,
    email: Json,
    phoneCountryCode: Json,
    phoneNumber: Json,
    bio: Json,
    rawAddress: Json)

  const Defaults := Values(JStr(""), JStr(""), JStr(""), JStr("+33"), JStr(""), JStr(""), JStr(""))

  /** `z.string().min(lo).max(hi)` */
  predicate Text(v: Json, lo: nat, hi: nat)
  {
    v.JStr? && lo <= |v.s| <= hi
  }

  /**
   * `profileFormSchema`: names of 2 to 100 characters, an e-mail, a dialling
   * code of 1 to 5 and a number of 6 to 20 characters, at most 160 for the
   * bio and 255 for the address typed in. The e-mail check is a parameter.
   */
  predicate SchemaAccepts(v: Values, isEmail: string -> bool)
  {
    Text(v.firstName, 2, 100) && Text(v.lastName, 2, 100)
    && v.email.JStr? && isEmail(v.email.s)
    && Text(v.phoneCountryCode, 1, 5) && Text(v.phoneNumber, 6, 20)
    && Text(v.bio, 0, 160) && Text(v.rawAddress, 0, 255)
  }

  /** The `form.reset` values for a fetched user: missing fields become "", the code defaults to "+33", the address typed in is always cleared. */
  function Loaded(user: Json): (v: Values)
    requires user != JNull
    ensures v.firstName == Or(Member(user, "first_name"), JStr("")) && v.lastName == Or(Member(user, "last_name"), JStr(""))
    ensures v.email == Or(Member(user, "email"), JStr(""))
    ensures v.phoneCountryCode == Or(Member(user, "phone_country_code"), JStr("+33"))
    ensures !Truthy(Member(user, "phone_country_code")) ==> v.phoneCountryCode == JStr("+33")
    ensures v.phoneNumber == Or(Member(user, "phone_number"), JStr("")) && v.bio == Or(Member(user, "bio"), JStr(""))
    ensures v.rawAddress == JStr("")
  {
    Values(Or(Member(user, "first_name"), JStr("")), Or(Member(user, "last_name"), JStr("")),
           Or(Member(user, "email"), JStr("")), Or(Member(user, "phone_country_code"), JStr("+33")),
           Or(Member(user, "phone_number"), JStr("")), Or(Member(user, "bio"), JStr("")), JStr(""))
  }

  /** `originalEmail && data.email && data.email !== originalEmail` */
  predicate EmailChanged(original: Json, email: Json)
  {
    Truthy(Some(original)) && Truthy(Some(email)) && email != original
  }

  /** The update payload: the six profile fields, `bio || ""`, and `raw_address` only when one was typed. */
  function Payload(v: Values): (p: map<string, Json>)
    ensures "raw_address" in p <==> Truthy(Some(v.rawAddress))
    ensures "raw_address" in p ==> p["raw_address"] == v.rawAddress
    ensures p.Keys - {"raw_address"} == {"first_name", "last_name", "email", "phone_country_code", "phone_number", "bio"}
    ensures p["first_name"] == v.firstName && p["last_name"] == v.lastName && p["email"] == v.email
    ensures p["phone_country_code"] == v.phoneCountryCode && p["phone_number"] == v.phoneNumber
    ensures p["bio"] == Or(Some(v.bio), JStr(""))
  {
    var base := map[
      "first_name" := v.firstName, "last_name" := v.lastName, "email" := v.email,
      "phone_country_code" := v.phoneCountryCode, "phone_number" := v.phoneNumber,
      "bio" := Or(Some(v.bio), JStr(""))];
    if Truthy(Some(v.rawAddress)) then base["raw_address" := v.rawAddress] else base
  }

  /** The form's state besides the values: the loading flag, the verified address shown, the e-mail last loaded. */
  datatype State = State(values: Values, loading: bool, addressText: Json, originalEmail: Json)

  const LoadFailure := "Impossible de charger votre profil."
  const UpdateFallback := "Échec de la mise à jour."
  const Updated := "Profil mis à jour."

  function VerificationSent(email: Json): string
  {
    "Nous vous avons envoyé un e\U{2011}mail de vérification à " + JsString(Some(email)) + "."
  }

  /** The mount effect, once `fetchUserProfile()` has settled. */
  function LoadEffect(s: State, w: World, fetched: Result<Json>): (out: (State, World))
    ensures fetched.Ok? && fetched.value != JNull ==>
              out.0 == s.(values := Loaded(fetched.value), addressText := Or(Member(fetched.value, "address"), JStr("")),
                          originalEmail := Or(Member(fetched.value, "email"), JStr("")))
              && out.1 == w
    ensures !(fetched.Ok? && fetched.value != JNull) ==> out == (s, ShowToast(w, Failure(LoadFailure)))
  {
    if fetched.Ok? && fetched.value != JNull then
      var user := fetched.value;
      (s.(values := Loaded(user), addressText := Or(Member(user, "address"), JStr("")),
          originalEmail := Or(Member(user, "email"), JStr(""))), w)
    else (s, ShowToast(w, Failure(LoadFailure)))
  }

  /** The `catch` block: `e?.message || fallback`, and nothing else changes. */
  function Failed(s: State, w: World, e: Error): (out: (State, World))
    ensures out.0 == s.(loading := false) && out.1.nav == w.nav
    ensures out.1.toasts == w.toasts + [Failure(if e.message != "" then e.message else UpdateFallback)]
  {
    (s.(loading := false), ShowToast(w, Failure(if e.message != "" then e.message else UpdateFallback)))
  }

  /**
   * `onSubmit` with values the schema accepted: update the profile, fetch it
   * again to show the verified address, clear the address typed in, then
   * announce either the verification e-mail or the update.
   */
  function SubmitEffect(s: State, w: World): (out: (State, World))
    ensures !out.0.loading
    ensures |out.1.toasts| == |w.toasts| + 1 && out.1.toasts[..|w.toasts|] == w.toasts
    ensures out.1.nav == w.nav
    ensures out.1.toasts[|w.toasts|].Failure? ==>
              out.0 == s.(loading := false)
    ensures out.1.toasts[|w.toasts|].Success? ==>
              out.0.values == s.values.(rawAddress := JStr(""))
              && out.0.originalEmail == (if EmailChanged(s.originalEmail, s.values.email) then s.values.email else s.originalEmail)
              && out.1.toasts[|w.toasts|].text ==
                 (if EmailChanged(s.originalEmail, s.values.email) then VerificationSent(s.values.email) else Updated)
    ensures var (w1, r) := Api.UpdateProfile(w, JObj(Payload(s.values)));
            (r.Ok? ==> out == Refreshed(s, w1)) && (r.Err? ==> out == Failed(s, w1, r.error))
  {
    var (w1, r) := Api.UpdateProfile(w, JObj(Payload(s.values)));
    if r.Err? then Failed(s, w1, r.error) else Refreshed(s, w1)
  }

  /** After a successful update: fetch the profile again, show its address, clear the typed one and announce the outcome. */
  function Refreshed(s: State, w: World): (out: (State, World))
    ensures !out.0.loading
    ensures |out.1.toasts| == |w.toasts| + 1 && out.1.toasts[..|w.toasts|] == w.toasts
    ensures out.1.nav == w.nav
    ensures out.1.toasts[|w.toasts|].Failure? ==> out.0 == s.(loading := false)
    ensures out.1.toasts[|w.toasts|].Success? ==>
              out.0.values == s.values.(rawAddress := JStr(""))
              && out.0.originalEmail == (if EmailChanged(s.originalEmail, s.values.email) then s.values.email else s.originalEmail)
              && out.1.toasts[|w.toasts|].text ==
                 (if EmailChanged(s.originalEmail, s.values.email) then VerificationSent(s.values.email) else Updated)
    ensures var (w2, u) := Api.FetchUserProfile(w);
            (out.1.toasts[|w.toasts|].Success? <==> u.Ok? && u.value != JNull)
            && out.1 == ShowToast(w2, out.1.toasts[|w.toasts|])
            && (u.Ok? && u.value != JNull ==> out.0.addressText == Or(Member(u.value, "address"), JStr("")))
            && (u.Err? ==> out == Failed(s, w2, u.error))
            && (u == Ok(JNull) ==> out == Failed(s, w2, TypeFailure))
  {
    var data := s.values;
    var (w2, u) := Api.FetchUserProfile(w);
    if u.Err? then Failed(s, w2, u.error)
    else if u.value == JNull then Failed(s, w2, TypeFailure)
    else
      var shown := s.(addressText := Or(Member(u.value, "address"), JStr("")), values := data.(rawAddress := JStr("")),
                      loading := false);
      if EmailChanged(s.originalEmail, data.email) then (shown.(originalEmail := data.email), ShowToast(w2, Success(VerificationSent(data.email))))
      else (shown, ShowToast(w2, Success(Updated)))
  }

  /** The outcome after the update does not depend on the `loading` flag set while it ran. */
  lemma RefreshedIgnoresLoading(s: State, w: World)
    ensures Refreshed(s.(loading := true), w) == Refreshed(s, w)
  {
    assert s.(loading := true).(loading := false) == s.(loading := false);
  }

  lemma FailedIgnoresLoading(s: State, w: World, e: Error)
    ensures Failed(s.(loading := true), w, e) == Failed(s, w, e)
  {
  }

  /** A submission whose update fails leaves the values, the address and the compared e-mail as they were. */
  lemma FailedUpdateKeepsForm(s: State, w: World)
    requires Api.UpdateProfile(w, JObj(Payload(s.values))).1.Err?
    ensures SubmitEffect(s, w).0 == s.(loading := false)
    ensures SubmitEffect(s, w).1.toasts[|w.toasts|].Failure?
  {
  }

  /** A submission whose update and refetch both succeed is announced as a success and shows the refetched address. */
  lemma SuccessfulUpdateReported(s: State, w: World)
    requires Api.UpdateProfile(w, JObj(Payload(s.values))).1.Ok?
    requires var u := Api.FetchUserProfile(Api.UpdateProfile(w, JObj(Payload(s.values))).0).1;
             u.Ok? && u.value != JNull
    ensures SubmitEffect(s, w).1.toasts[|w.toasts|].Success?
    ensures SubmitEffect(s, w).0.addressText
            == Or(Member(Api.FetchUserProfile(Api.UpdateProfile(w, JObj(Payload(s.values))).0).1.value, "address"), JStr(""))
  {
    var w1 := Api.UpdateProfile(w, JObj(Payload(s.values))).0;
    assert SubmitEffect(s, w) == Refreshed(s, w1);
    assert w1.toasts == w.toasts;
  }

  class Form {
    const client: ApiClient.Client
    var values: Values
    var loading: bool
    var addressText: Json
    var originalEmail: Json

    function Current(): State
      reads this
    {
      State(values, loading, addressText, originalEmail)
    }

    constructor (client: ApiClient.Client)
      ensures this.client == client && Current() == State(Defaults, false, JStr(""), JStr(""))
    {
      this.client := client;
      values := Defaults;
      loading := false;
      addressText := JStr("");
      originalEmail := JStr("");
    }

    /** The mount effect. */
    method Load() returns (fetched: Result<Json>)
      modifies this, client.win
      ensures (Current(), client.win.State()) == LoadEffect(old(Current()), Api.FetchUserProfile(old(client.win.State())).0, fetched)
      ensures fetched == Api.FetchUserProfile(old(client.win.State())).1
    {
      fetched := client.FetchUserProfile();
      if fetched.Ok? && fetched.value != JNull {
        var user := fetched.value;
        values := Loaded(user);
        addressText := Or(Member(user, "address"), JStr(""));
        originalEmail := Or(Member(user, "email"), JStr(""));
      } else {
        client.win.Notify(Failure(LoadFailure));
      }
    }

    /** A submission: only values the schema accepts reach `onSubmit`; others change nothing. */
    method Submit(isEmail: string -> bool) returns (submitted: bool)
      modifies this, client.win
      ensures submitted == SchemaAccepts(old(values), isEmail)
      ensures !submitted ==> Current() == old(Current()) && client.win.State() == old(client.win.State())
      ensures submitted ==> (Current(), client.win.State()) == SubmitEffect(old(Current()), old(client.win.State()))
    {
      if !SchemaAccepts(values, isEmail) {
        return false;
      }
      ghost var s0, w0 := Current(), client.win.State();
      submitted := true;
      loading := true;
      var r := client.UpdateProfile(JObj(Payload(values)));
      ghost var w1 := client.win.State();
      assert (w1, r) == Api.UpdateProfile(w0, JObj(Payload(s0.values)));
      if r.Err? {
        FailedIgnoresLoading(s0, w1, r.error);
        Fail(r.error);
        return;
      }
      RefreshedIgnoresLoading(s0, w1);
      Refresh();
    }

    /** The part of `onSubmit` after the update succeeded. */
    method Refresh()
      modifies this, client.win
      ensures (Current(), client.win.State()) == Refreshed(old(Current()), old(client.win.State()))
    {
      var data := values;
      var u := client.FetchUserProfile();
      if u.Err? {
        Fail(u.error);
        return;
      }
      if u.value == JNull {
        Fail(TypeFailure);
        return;
      }
      addressText := Or(Member(u.value, "address"), JStr(""));
      values := data.(rawAddress := JStr(""));
      if EmailChanged(originalEmail, data.email) {
        client.win.Notify(Success(VerificationSent(data.email)));
        originalEmail := data.email;
      } else {
        client.win.Notify(Success(Updated));
      }
      loading := false;
    }

    method Fail(e: Error)
      modifies this, client.win
      ensures (Current(), client.win.State()) == Failed(old(Current()), old(client.win.State()), e)
    {
      client.win.Notify(Failure(if e.message != "" then e.message else UpdateFallback));
      loading := false;
    }
  }
}
