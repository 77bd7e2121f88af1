/**
 * The registration form. Both copies of it
 * (`front/src/components/forms/register-form.jsx` and
 * `front/src/components/register-form.jsx`) declare the same `registerSchema`
 * and the same `onSubmit`, so one module models both: the schema's issues,
 * the payload sent to `registerUser`, and what a submission does.
 */
module RegisterForm {
  import opened Js
  import opened Browser
  import opened Validators
  import Api
  import ApiClient

  /** The form's inputs; `None` is a field the form never filled, which the schema reads as `undefined`. */
  datatype Values = Values(
    firstName: Option<string>,
    lastName: Option<string>,
    email: Option<string>,
    phoneCountryCode: Option<string>,
    phoneNumber: Option<string>,
    password: Option<string>,
    confirmPassword: Option<string>)

  const PasswordWording := Wording(
    "Password must be at least 8 characters long",
    "Must contain at least one uppercase letter",
    "Must contain at least one number",
    "Must contain at least one special character")

  /** The refinement's issue: on `confirm_password`, not on `password`. */
  const Mismatch := Issue("confirm_password", "Passwords do not match")

  const Registered := "/login?registered=true"

  /** Every field holds a string; otherwise the object check aborts and the refinement is not run. */
  predicate Complete(v: Values)
  {
    v.firstName.Some? && v.lastName.Some? && v.email.Some? && v.phoneCountryCode.Some?
    && v.phoneNumber.Some? && v.password.Some? && v.confirmPassword.Some?
  }

  /** The issues of the object schema, field by field in declaration order. */
  function FieldIssues(v: Values, isEmail: string -> bool): seq<Issue>
  {
    MinIssues("first_name", v.firstName, 2, "First name is required")
    + MinIssues("last_name", v.lastName, 2, "Last name is required")
    + EmailIssues("email", v.email, isEmail, "Invalid email format")
    + MinIssues("phone_country_code", v.phoneCountryCode, 2, "Select a country code")
    + MinIssues("phone_number", v.phoneNumber, 8, "Invalid phone number")
    + PolicyIssues("password", v.password, PasswordWording)
    + PresentIssues("confirm_password", v.confirmPassword)
  }

  /** `registerSchema`: the field issues, then the mismatch when every field is present and the two passwords differ. */
  function Issues(v: Values, isEmail: string -> bool): (r: seq<Issue>)
    ensures Complete(v) && v.password.value != v.confirmPassword.value ==> |r| > 0 && r[|r| - 1] == Mismatch
    ensures Complete(v) && v.password.value == v.confirmPassword.value ==> r == FieldIssues(v, isEmail)
  {
    FieldIssues(v, isEmail)
    + (if Complete(v) && v.password.value != v.confirmPassword.value then [Mismatch] else [])
  }

  /** What the schema means, stated per field. */
  predicate Acceptable(v: Values, isEmail: string -> bool)
  {
    Complete(v)
    && |v.firstName.value| >= 2 && |v.lastName.value| >= 2
    && isEmail(v.email.value)
    && |v.phoneCountryCode.value| >= 2 && |v.phoneNumber.value| >= 8
    && Strong(v.password.value)
    && v.password.value == v.confirmPassword.value
  }

  /** The schema reports no issue exactly when every rule holds. */
  lemma IssuesEmptyIffAcceptable(v: Values, isEmail: string -> bool)
    ensures Issues(v, isEmail) == [] <==> Acceptable(v, isEmail)
  {
    var first := MinIssues("first_name", v.firstName, 2, "First name is required");
    var last := MinIssues("last_name", v.lastName, 2, "Last name is required");
    var mail := EmailIssues("email", v.email, isEmail, "Invalid email format");
    var code := MinIssues("phone_country_code", v.phoneCountryCode, 2, "Select a country code");
    var number := MinIssues("phone_number", v.phoneNumber, 8, "Invalid phone number");
    var pass := PolicyIssues("password", v.password, PasswordWording);
    var confirm := PresentIssues("confirm_password", v.confirmPassword);
    assert FieldIssues(v, isEmail) == first + last + mail + code + number + pass + confirm;
    assert FieldIssues(v, isEmail) == [] <==>
             first == [] && last == [] && mail == [] && code == [] && number == [] && pass == [] && confirm == [];
  }

  /** The issues never name a field other than the seven of the form. */
  lemma IssuesOnFormFields(v: Values, isEmail: string -> bool)
    ensures OnFields(Issues(v, isEmail),
                     {"first_name", "last_name", "email", "phone_country_code", "phone_number", "password", "confirm_password"})
  {
    var paths := {"first_name", "last_name", "email", "phone_country_code", "phone_number", "password", "confirm_password"};
    var first := MinIssues("first_name", v.firstName, 2, "First name is required");
    var last := MinIssues("last_name", v.lastName, 2, "Last name is required");
    var mail := EmailIssues("email", v.email, isEmail, "Invalid email format");
    var code := MinIssues("phone_country_code", v.phoneCountryCode, 2, "Select a country code");
    var number := MinIssues("phone_number", v.phoneNumber, 8, "Invalid phone number");
    var pass := PolicyIssues("password", v.password, PasswordWording);
    var confirm := PresentIssues("confirm_password", v.confirmPassword);
    var tail := if Complete(v) && v.password.value != v.confirmPassword.value then [Mismatch] else [];
    assert Issues(v, isEmail) == first + last + mail + code + number + pass + confirm + tail;
    OnFieldsAppend([], first, {"first_name"}, paths);
    OnFieldsAppend(first, last, {"last_name"}, paths);
    OnFieldsAppend(first + last, mail, {"email"}, paths);
    OnFieldsAppend(first + last + mail, code, {"phone_country_code"}, paths);
    OnFieldsAppend(first + last + mail + code, number, {"phone_number"}, paths);
    OnFieldsAppend(first + last + mail + code + number, pass, {"password"}, paths);
    OnFieldsAppend(first + last + mail + code + number + pass, confirm, {"confirm_password"}, paths);
    OnFieldsAppend(first + last + mail + code + number + pass + confirm, tail, {"confirm_password"}, paths);
  }

  /** A form with a missing field reports `Required` for it but never the mismatch, whatever the passwords. */
  lemma IncompleteSkipsMismatch(v: Values, isEmail: string -> bool)
    requires !Complete(v)
    ensures Mismatch !in Issues(v, isEmail)
    ensures Issue("confirm_password", Required) in Issues(v, isEmail) <==> v.confirmPassword.None?
  {
    var rest := MinIssues("first_name", v.firstName, 2, "First name is required")
      + MinIssues("last_name", v.lastName, 2, "Last name is required")
      + EmailIssues("email", v.email, isEmail, "Invalid email format")
      + MinIssues("phone_country_code", v.phoneCountryCode, 2, "Select a country code")
      + MinIssues("phone_number", v.phoneNumber, 8, "Invalid phone number")
      + PolicyIssues("password", v.password, PasswordWording);
    var confirm := PresentIssues("confirm_password", v.confirmPassword);
    assert Issues(v, isEmail) == rest + confirm;
    assert forall i :: 0 <= i < |rest| ==> rest[i].path != "confirm_password";
  }

  /** `userData`: the six fields the server needs; the confirmation stays in the browser. */
  function Payload(v: Values): (p: map<string, Json>)
    requires Complete(v)
    ensures p.Keys == {"first_name", "last_name", "email", "phone_country_code", "phone_number", "password"}
    ensures "confirm_password" !in p
    ensures p["first_name"] == JStr(v.firstName.value) && p["last_name"] == JStr(v.lastName.value)
    ensures p["email"] == JStr(v.email.value) && p["password"] == JStr(v.password.value)
    ensures p["phone_country_code"] == JStr(v.phoneCountryCode.value) && p["phone_number"] == JStr(v.phoneNumber.value)
  {
    map["first_name" := JStr(v.firstName.value), "last_name" := JStr(v.lastName.value),
        "email" := JStr(v.email.value), "phone_country_code" := JStr(v.phoneCountryCode.value),
        "phone_number" := JStr(v.phoneNumber.value), "password" := JStr(v.password.value)]
  }

  /**
   * `onSubmit` with values the schema accepted: one registration request,
   * then a navigation to the login page only when it succeeded; a failure is
   * only logged. No toast is shown and nothing is stored.
   */
  function SubmitEffect(w: World, v: Values): (out: World)
    requires Complete(v)
    ensures out.sent == w.sent + [Api.RegisterRequest(Payload(v))]
    ensures out.storage == w.storage && out.toasts == w.toasts
    ensures Api.NextIsOkJson(w) ==> out.nav == w.nav + [Push(Registered)]
    ensures !Api.NextIsOkJson(w) ==> out.nav == w.nav
  {
    var (w1, r) := Api.RegisterUser(w, Payload(v));
    if r.Ok? then Navigate(w1, Push(Registered)) else w1
  }

  /** The form component. */
  class Form {
    const client: ApiClient.Client
    var loading: bool

    constructor (client: ApiClient.Client)
      ensures this.client == client && !loading
    {
      this.client := client;
      loading := false;
    }

    /** `handleSubmit(onSubmit)`: values with issues change nothing; others are submitted, and loading ends false. */
    method Submit(v: Values, isEmail: string -> bool) returns (issues: seq<Issue>)
      modifies this, client.win
      ensures issues == Issues(v, isEmail)
      ensures issues != [] ==> client.win.State() == old(client.win.State()) && loading == old(loading)
      ensures issues == [] ==> Complete(v) && client.win.State() == SubmitEffect(old(client.win.State()), v) && !loading
    {
      issues := Issues(v, isEmail);
      if issues != [] {
        return;
      }
      IssuesEmptyIffAcceptable(v, isEmail);
      loading := true;
      var r := client.RegisterUser(Payload(v));
      if r.Ok? {
        client.win.Go(Push(Registered));
      }
      loading := false;
    }
  }
}
