/**
 * The change-password form (`front/src/components/forms/change-password-form.jsx`):
 * its schema (the current password, the new one under the password policy,
 * and a confirmation that must match it) and what a submission does to the
 * fields and the page.
 */
module ChangePasswordForm {
  import opened Js
  import opened Browser
  import opened Validators
  import Api
  import ApiClient

  /** The three fields; the form starts them all at "", so they are always strings. */
  datatype Values = Values(oldPassword: string, newPassword: string, confirmNewPassword: string)

  const Blank := Values("", "", "")

  const PolicyWording := Wording(
    "8 caractères minimum",
    "Une majuscule requise",
    "Un chiffre requis",
    "Un caractère spécial requis")

  const Mismatch := Issue("confirm_new_password", "Les mots de passe ne correspondent pas")

  const Changed := "Mot de passe mis à jour."
  const ChangeFallback := "Échec du changement de mot de passe"

  /** `schema`: the field issues in order, then the mismatch on the confirmation. */
  function Issues(v: Values): (r: seq<Issue>)
    ensures v.newPassword != v.confirmNewPassword ==> |r| > 0 && r[|r| - 1] == Mismatch
    ensures v.newPassword == v.confirmNewPassword ==> Mismatch !in r
  {
    var current := if |v.oldPassword| < 6 then [Issue("old_password", "Mot de passe requis")] else [];
    var issues := current + PasswordIssues("new_password", v.newPassword, PolicyWording);
    assert forall i :: 0 <= i < |issues| ==> issues[i].path != "confirm_new_password";
    issues + (if v.newPassword != v.confirmNewPassword then [Mismatch] else [])
  }

  /** What the schema means. */
  predicate Acceptable(v: Values)
  {
    |v.oldPassword| >= 6 && Strong(v.newPassword) && v.newPassword == v.confirmNewPassword
  }

  lemma IssuesEmptyIffAcceptable(v: Values)
    ensures Issues(v) == [] <==> Acceptable(v)
  {
    var current := if |v.oldPassword| < 6 then [Issue("old_password", "Mot de passe requis")] else [];
    var pass := PasswordIssues("new_password", v.newPassword, PolicyWording);
    var last := if v.newPassword != v.confirmNewPassword then [Mismatch] else [];
    assert Issues(v) == current + pass + last;
  }

  /** The blank form the page starts with, and returns to after a change, is refused. */
  lemma BlankRefused()
    ensures Issues(Blank) == [Issue("old_password", "Mot de passe requis")] + PasswordIssues("new_password", "", PolicyWording)
    ensures |Issues(Blank)| == 5
  {
    assert !HasUpper("") && !HasDigit("") && !HasSpecial("");
  }

  /** The form: its fields and the loading flag. */
  datatype State = State(values: Values, loading: bool)

  /**
   * `onSubmit` with values the schema accepted: the three values go to
   * `changePassword`; success announces it and blanks the fields, failure
   * shows the error's message (or the fallback) and keeps them. Loading ends
   * false and the page does not navigate.
   */
  function SubmitEffect(s: State, w: World): (out: (State, World))
    ensures !out.0.loading
    ensures out.1.nav == w.nav
    ensures |out.1.toasts| == |w.toasts| + 1 && out.1.toasts[..|w.toasts|] == w.toasts
    ensures out.1.toasts[|w.toasts|].Success? ==> out.0.values == Blank && out.1.toasts[|w.toasts|].text == Changed
    ensures out.1.toasts[|w.toasts|].Failure? ==> out.0.values == s.values
    ensures out.1.toasts[|w.toasts|] == Success(Changed) <==>
              Api.ChangePassword(w, s.values.oldPassword, s.values.newPassword, Some(s.values.confirmNewPassword)).1.Ok?
    ensures var (w1, r) := Api.ChangePassword(w, s.values.oldPassword, s.values.newPassword, Some(s.values.confirmNewPassword));
            (r.Ok? ==> out == (State(Blank, false), ShowToast(w1, Success(Changed))))
            && (r.Err? ==> out == (s.(loading := false),
                                   ShowToast(w1, Failure(if r.error.message != "" then r.error.message else ChangeFallback))))
  {
    var v := s.values;
    var (w1, r) := Api.ChangePassword(w, v.oldPassword, v.newPassword, Some(v.confirmNewPassword));
    match r
    case Ok(_) => (State(Blank, false), ShowToast(w1, Success(Changed)))
    case Err(e) => (s.(loading := false), ShowToast(w1, Failure(if e.message != "" then e.message else ChangeFallback)))
  }

  /** With no token stored nothing is sent and the user is told they are not authenticated. */
  lemma SignedOutIsRefused(s: State, w: World)
    requires !Filled(GetItem(w, Api.AccessKey))
    ensures SubmitEffect(s, w).1 == ShowToast(w, Failure(Api.NotAuthenticated.message))
    ensures SubmitEffect(s, w).0 == s.(loading := false)
  {
  }

  class Form {
    const client: ApiClient.Client
    var values: Values
    var loading: bool

    function Current(): State
      reads this
    {
      State(values, loading)
    }

    constructor (client: ApiClient.Client)
      ensures this.client == client && Current() == State(Blank, false)
    {
      this.client := client;
      values := Blank;
      loading := false;
    }

    /** A submission: values with issues are not submitted and change nothing. */
    method Submit() returns (issues: seq<Issue>)
      modifies this, client.win
      ensures issues == Issues(old(values))
      ensures issues != [] ==> Current() == old(Current()) && client.win.State() == old(client.win.State())
      ensures issues == [] ==> (Current(), client.win.State()) == SubmitEffect(old(Current()), old(client.win.State()))
    {
      issues := Issues(values);
      if issues != [] {
        return;
      }
      loading := true;
      var r := client.ChangePassword(values.oldPassword, values.newPassword, Some(values.confirmNewPassword));
      if r.Ok? {
        client.win.Notify(Success(Changed));
        values := Blank;
      } else {
        client.win.Notify(Failure(if r.error.message != "" then r.error.message else ChangeFallback));
      }
      loading := false;
    }
  }
}
